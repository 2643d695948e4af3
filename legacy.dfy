/**
 * The first container, src/sahara.js, and the object builder of
 * src/builder.js.
 *
 * The container keeps two dictionaries: types registered from their
 * constructor's source text (every parameter annotated with a doc comment
 * naming the type it needs) and instances registered under a name.
 * Resolution returns a registered instance or builds the type, resolving its
 * parameters first, in position order.
 */
module Legacy {
  import opened Js
  import opened DocComments
  import opened Signatures
  import opened ObjectBuilding
  import C = Containers
  import W = MethodWrapping

  /** A registered type: its constructor's parameters and the constructor. */
  datatype TypeData = TypeData(args: seq<Argument>, ctor: Function)

  const NameRequiredMessage := "\"name\" must be given if a named function is not"

  function SourceMessage(ctor: Function): string
  {
    "Unable to parse function definition: " + ctor.source
  }

  /** The error for the parameter at split index `i`, counted from one in the message. */
  function ParameterMessage(i: nat, typeName: string): string
  {
    "Unable to determine type of parameter at position " + NatToString(i + 1) + " for type \"" + typeName + "\""
  }

  function NotRegisteredMessage(typeName: string): string
  {
    "The type \"" + typeName + "\" is not registered in the container"
  }

  // ---------------------------------------------------------------------
  // Registering a type

  /** A piece of the signature, trimmed, as `/** Type */ name`; nothing else is a parameter. */
  function PieceArg(i: nat, piece: string): (r: Option<Argument>)
    ensures r.Some? ==> r.value.position == i && r.value.parsedAs == DocComment
  {
    match DocCommentParam(Legacy, Trim(piece))
    case Some((ty, n)) => Some(Argument(i, ty, n, DocComment))
    case None => None
  }

  /** What each piece of the signature parses to, at its index. */
  function PieceArgs(pieces: seq<string>): (r: seq<Option<Argument>>)
    ensures |r| == |pieces| && forall i :: 0 <= i < |pieces| ==> r[i] == PieceArg(i, pieces[i])
  {
    seq(|pieces|, i requires 0 <= i < |pieces| => PieceArg(i, pieces[i]))
  }

  /** The parsed parameters, or the error naming the first index that is not one. */
  function Collect(typeName: string, parsed: seq<Option<Argument>>): Result<seq<Argument>>
    decreases |parsed|
  {
    if parsed == [] then Success([])
    else
      var n := |parsed| - 1;
      match Collect(typeName, parsed[..n])
      case Failure(e) => Failure(e)
      case Success(args) =>
        match parsed[n]
        case None => Failure(Error(ParameterMessage(n, typeName)))
        case Some(a) => Success(args + [a])
  }

  /** The parameters of the pieces, or the error naming the first piece that is not one. */
  function ParseParams(typeName: string, pieces: seq<string>): Result<seq<Argument>>
  {
    Collect(typeName, PieceArgs(pieces))
  }

  /** The parameters of a trimmed signature: none for an empty one. */
  function SignatureParams(typeName: string, signature: string): Result<seq<Argument>>
  {
    if signature == "" then Success([]) else ParseParams(typeName, Split(signature, ','))
  }

  /**
   * Collecting succeeds exactly when every index parsed, and then yields
   * what each index parsed to, in order.
   */
  lemma {:induction false} CollectSuccess(typeName: string, parsed: seq<Option<Argument>>)
    ensures Collect(typeName, parsed).Success? <==> forall i :: 0 <= i < |parsed| ==> parsed[i].Some?
    ensures Collect(typeName, parsed).Success? ==>
            var args := Collect(typeName, parsed).value;
            |args| == |parsed| && forall i :: 0 <= i < |parsed| ==> parsed[i] == Some(args[i])
    decreases |parsed|
  {
    if parsed != [] {
      var n := |parsed| - 1;
      CollectSuccess(typeName, parsed[..n]);
      assert forall i :: 0 <= i < n ==> parsed[..n][i] == parsed[i];
    }
  }

  /** Once the indices before `j` parsed and index `j` did not, the error names position `j`. */
  lemma {:induction false} CollectStopsAt(typeName: string, parsed: seq<Option<Argument>>, j: nat)
    requires j < |parsed| && Collect(typeName, parsed[..j]).Success? && parsed[j].None?
    ensures Collect(typeName, parsed) == Failure(Error(ParameterMessage(j, typeName)))
    decreases |parsed|
  {
    var n := |parsed| - 1;
    if j < n {
      assert parsed[..n][..j] == parsed[..j];
      assert parsed[..n][j] == parsed[j];
      CollectStopsAt(typeName, parsed[..n], j);
    }
  }

  /**
   * Parsing succeeds exactly when every piece is a doc-comment parameter,
   * and then yields one argument per piece, at the piece's index.
   */
  lemma ParseParamsSuccess(typeName: string, pieces: seq<string>)
    ensures ParseParams(typeName, pieces).Success? <==> forall i :: 0 <= i < |pieces| ==> PieceArg(i, pieces[i]).Some?
    ensures ParseParams(typeName, pieces).Success? ==>
            var args := ParseParams(typeName, pieces).value;
            |args| == |pieces| && forall i :: 0 <= i < |pieces| ==> Some(args[i]) == PieceArg(i, pieces[i])
  {
    CollectSuccess(typeName, PieceArgs(pieces));
  }

  /** The error names the first piece that is not a doc-comment parameter. */
  lemma FirstBadPiece(typeName: string, pieces: seq<string>, j: nat)
    requires j < |pieces| && PieceArg(j, pieces[j]).None?
    requires forall i :: 0 <= i < j ==> PieceArg(i, pieces[i]).Some?
    ensures ParseParams(typeName, pieces) == Failure(Error(ParameterMessage(j, typeName)))
  {
    var parsed := PieceArgs(pieces);
    CollectSuccess(typeName, parsed[..j]);
    CollectStopsAt(typeName, parsed, j);
  }

  /** Parsed parameters come in position order, so `resolve`'s sort keeps them as they are. */
  lemma ParsedSorted(typeName: string, signature: string)
    requires SignatureParams(typeName, signature).Success?
    ensures SortedByPosition(SignatureParams(typeName, signature).value)
  {
    if signature != "" {
      ParseParamsSuccess(typeName, Split(signature, ','));
    }
  }

  /** `signature.split(',').forEach(...)`: one parameter pushed per piece, stopping at the first that is not one. */
  method ParseSignature(typeName: string, signature: string) returns (r: Result<seq<Argument>>)
    ensures r == SignatureParams(typeName, signature)
  {
    if signature == "" {
      return Success([]);
    }
    var pieces := Split(signature, ',');
    ghost var parsed := PieceArgs(pieces);
    var args := [];
    for i := 0 to |pieces|
      invariant Collect(typeName, parsed[..i]) == Success(args)
    {
      assert parsed[..i + 1][..i] == parsed[..i] && parsed[..i + 1][i] == PieceArg(i, pieces[i]);
      var data := DocCommentParam(Legacy, Trim(pieces[i]));
      if data.None? {
        CollectStopsAt(typeName, parsed, i);
        return Failure(Error(ParameterMessage(i, typeName)));
      }
      args := args + [Argument(i, data.value.0, data.value.1, DocComment)];
    }
    assert parsed[..|pieces|] == parsed;
    r := Success(args);
  }

  /**
   * `registerType(ctor, name)` before anything is stored: the name the
   * function's header spells out, else the given name, and the parsed
   * parameters.
   */
  function Registration(ctor: Function, name: string): Result<(string, TypeData)>
  {
    match ctor.headers.legacy
    case None => Failure(Error(SourceMessage(ctor)))
    case Some(h) =>
      var typeName := if h.name != "" then h.name else name;
      if typeName == "" then Failure(Error(NameRequiredMessage))
      else match SignatureParams(typeName, Trim(h.params))
        case Failure(e) => Failure(e)
        case Success(args) => Success((typeName, TypeData(args, ctor)))
  }

  /**
   * A named function is registered under its own name whatever name is
   * given; an anonymous one under the given name, and without one the
   * registration fails (tests/container-tests.js:28-60).
   */
  lemma RegistrationName(ctor: Function, name: string)
    requires ctor.headers.legacy.Some?
    ensures var h := ctor.headers.legacy.value;
            var r := Registration(ctor, name);
            (h.name != "" && r.Success? ==> r.value.0 == h.name) &&
            (h.name == "" && name != "" && r.Success? ==> r.value.0 == name) &&
            (h.name == "" && name == "" ==> r == Failure(Error(NameRequiredMessage)))
  {
  }

  /** What a successful registration stores is in position order. */
  lemma RegistrationSorted(ctor: Function, name: string)
    requires Registration(ctor, name).Success?
    ensures SortedByPosition(Registration(ctor, name).value.1.args)
  {
    var h := ctor.headers.legacy.value;
    var typeName := if h.name != "" then h.name else name;
    ParsedSorted(typeName, Trim(h.params));
  }

  /**
   * `function Foo(bar) {}` is refused: its only parameter has no doc comment
   * (tests/container-tests.js:79-87).
   */
  lemma UntypedParameter(ctor: Function)
    requires ctor.headers.legacy == Some(Header(NamedFunction, "Foo", "bar"))
    ensures Registration(ctor, "") == Failure(Error(ParameterMessage(0, "Foo")))
  {
    assert "bar"[1..] == "ar" && "ar"[1..] == "r" && "r"[1..] == "";
    assert Split("", ',') == [""];
    assert ['r'] + "" == "r" && ['a'] + "r" == "ar" && ['b'] + "ar" == "bar";
    assert Split("r", ',') == ["r"];
    assert Split("ar", ',') == ["ar"];
    assert Split("bar", ',') == ["bar"];
    assert Trim("bar") == "bar";
    assert !StartsWith("bar", "/**");
    FirstBadPiece("Foo", ["bar"], 0);
  }

  // ---------------------------------------------------------------------
  // Resolving

  /**
   * `resolve(typeName)`: a truthy registered instance; else the registered
   * type, built from its parameters resolved one after another in position
   * order, by calling its constructor on a fresh object with its prototype.
   * `fuel` bounds the depth of nested resolutions, as the call stack does.
   */
  function ResolveF(regs: map<string, TypeData>, instances: map<string, Value>, typeName: string,
                    w: C.World, fuel: nat): (r: C.Outcome<Value>)
    ensures C.Extends(w, r.world)
    decreases fuel, 0
  {
    if fuel == 0 then C.Outcome(Failure(C.CallStackExceeded), w)
    else if typeName in instances && Truthy(instances[typeName]) then C.Outcome(Success(instances[typeName]), w)
    else if typeName !in regs then C.Outcome(Failure(Error(NotRegisteredMessage(typeName))), w)
    else
      var reg := regs[typeName];
      var args := ResolveAllF(regs, instances, C.Types(SortArgs(reg.args)), w, fuel - 1);
      if args.result.Failure? then C.Outcome(Failure(args.result.error), args.world)
      else
        var (o, w1) := C.Allocate(args.world, reg.ctor.name, reg.ctor.prototype);
        var call := C.CallMethodF(reg.ctor, o, args.result.value, w1);
        C.Outcome(if call.result.Failure? then Failure(call.result.error) else Success(o), call.world)
  }

  /** `params.map(...)`: each type resolved in turn, stopping at the first failure. */
  function ResolveAllF(regs: map<string, TypeData>, instances: map<string, Value>, types: seq<string>,
                       w: C.World, fuel: nat): (r: C.Outcome<seq<Value>>)
    ensures C.Extends(w, r.world)
    ensures r.result.Success? ==> |r.result.value| == |types|
    decreases fuel, 1, |types|
  {
    if types == [] then C.Outcome(Success([]), w)
    else
      var first := ResolveF(regs, instances, types[0], w, fuel);
      if first.result.Failure? then C.Outcome(Failure(first.result.error), first.world)
      else C.Prepend([first.result.value], ResolveAllF(regs, instances, types[1..], first.world, fuel))
  }

  /** A truthy registered instance is returned as it is, before any type registration is consulted. */
  lemma InstanceFirst(regs: map<string, TypeData>, instances: map<string, Value>, typeName: string, w: C.World, fuel: nat)
    requires fuel > 0 && typeName in instances && Truthy(instances[typeName])
    ensures ResolveF(regs, instances, typeName, w, fuel) == C.Outcome(Success(instances[typeName]), w)
  {
  }

  /** A name with neither a truthy instance nor a type fails (tests/container-tests.js:22-25). */
  lemma UnknownName(regs: map<string, TypeData>, instances: map<string, Value>, typeName: string, w: C.World, fuel: nat)
    requires fuel > 0 && typeName !in regs && !(typeName in instances && Truthy(instances[typeName]))
    ensures ResolveF(regs, instances, typeName, w, fuel) ==
            C.Outcome(Failure(Error(NotRegisteredMessage(typeName))), w)
  {
  }

  /** Every name has a truthy registered instance. */
  predicate AllTruthy(instances: map<string, Value>, types: seq<string>)
  {
    forall i :: 0 <= i < |types| ==> types[i] in instances && Truthy(instances[types[i]])
  }

  function Lookup(instances: map<string, Value>, types: seq<string>): (r: seq<Value>)
    requires AllTruthy(instances, types)
    ensures |r| == |types| && forall i :: 0 <= i < |types| ==> r[i] == instances[types[i]]
  {
    seq(|types|, i requires 0 <= i < |types| => instances[types[i]])
  }

  /** Names that all have truthy instances resolve to those instances, in order, changing nothing. */
  lemma {:induction false} AllInstances(regs: map<string, TypeData>, instances: map<string, Value>, types: seq<string>,
                                        w: C.World, fuel: nat)
    requires fuel > 0 && AllTruthy(instances, types)
    ensures ResolveAllF(regs, instances, types, w, fuel) == C.Outcome(Success(Lookup(instances, types)), w)
    decreases |types|
  {
    if types != [] {
      assert ResolveF(regs, instances, types[0], w, fuel) == C.Outcome(Success(instances[types[0]]), w);
      assert AllTruthy(instances, types[1..]);
      AllInstances(regs, instances, types[1..], w, fuel);
      assert [instances[types[0]]] + Lookup(instances, types[1..]) == Lookup(instances, types);
    }
  }

  /**
   * A type whose parameters are all registered instances is built by one
   * call of its constructor, on a fresh object, with those instances in
   * position order (tests/container-tests.js:62-77).
   */
  lemma BuildsWithInstances(regs: map<string, TypeData>, instances: map<string, Value>, typeName: string,
                            w: C.World, fuel: nat)
    requires fuel > 1 && typeName in regs && !(typeName in instances && Truthy(instances[typeName]))
    requires AllTruthy(instances, C.Types(regs[typeName].args))
    requires SortedByPosition(regs[typeName].args)
    requires !regs[typeName].ctor.behaviour.Throws?
    ensures var reg := regs[typeName];
            var types := C.Types(reg.args);
            var r := ResolveF(regs, instances, typeName, w, fuel);
            r.result == Success(Obj(w.next, Some(reg.ctor.name))) &&
            r.world.log == w.log + [C.InvokeMethod(reg.ctor, Obj(w.next, Some(reg.ctor.name)),
                                                   Lookup(instances, types))]
  {
    var reg := regs[typeName];
    SortedUnchanged(reg.args);
    AllInstances(regs, instances, C.Types(reg.args), w, fuel - 1);
  }

  /** Every registered parameter list is in position order. */
  predicate SortedRegistrations(regs: map<string, TypeData>)
  {
    forall k :: k in regs ==> SortedByPosition(regs[k].args)
  }

  /** The container of src/sahara.js. */
  class Container {
    const realm: C.Realm
    var registrations: map<string, TypeData>
    var instances: map<string, Value>

    predicate Valid()
      reads this
    {
      SortedRegistrations(registrations)
    }

    constructor (realm: C.Realm)
      ensures this.realm == realm && registrations == map[] && instances == map[] && Valid()
    {
      this.realm := realm;
      registrations := map[];
      instances := map[];
    }

    /** `registerType(ctor, name)`: the type stored under its name, or the error and nothing stored. */
    method RegisterType(ctor: Function, name: string) returns (r: Result<()>)
      requires Valid()
      modifies this
      ensures Valid() && instances == old(instances)
      ensures Registration(ctor, name).Failure? ==>
              r == Failure(Registration(ctor, name).error) && registrations == old(registrations)
      ensures Registration(ctor, name).Success? ==>
              var (typeName, data) := Registration(ctor, name).value;
              r == Success(()) && registrations == old(registrations)[typeName := data]
    {
      var h := ctor.headers.legacy;
      if h.None? {
        return Failure(Error(SourceMessage(ctor)));
      }
      var typeName := if h.value.name != "" then h.value.name else name;
      if typeName == "" {
        return Failure(Error(NameRequiredMessage));
      }
      var args := ParseSignature(typeName, Trim(h.value.params));
      if args.Failure? {
        return Failure(args.error);
      }
      RegistrationSorted(ctor, name);
      registrations := registrations[typeName := TypeData(args.value, ctor)];
      r := Success(());
    }

    /** `registerInstance(typeName, instance)`: `undefined` is refused and nothing is stored. */
    method RegisterInstance(typeName: string, instance: Value) returns (r: Result<()>)
      modifies this
      ensures registrations == old(registrations)
      ensures instance == Undefined ==> r == Failure(TypeError("No instance given")) && instances == old(instances)
      ensures instance != Undefined ==> r == Success(()) && instances == old(instances)[typeName := instance]
    {
      if instance == Undefined {
        return Failure(TypeError("No instance given"));
      }
      instances := instances[typeName := instance];
      r := Success(());
    }

    /**
     * `resolve(typeName)`.  The parameters are sorted in place in the stored
     * registration; they are already in order, so the registrations stay as
     * they were.
     */
    method Resolve(typeName: string, fuel: nat) returns (r: Result<Value>)
      requires Valid()
      modifies this, realm
      ensures registrations == old(registrations) && instances == old(instances)
      ensures C.Outcome(r, realm.State()) == ResolveF(registrations, instances, typeName, old(realm.State()), fuel)
      decreases fuel, 0
    {
      if fuel == 0 {
        return Failure(C.CallStackExceeded);
      }
      if typeName in instances && Truthy(instances[typeName]) {
        return Success(instances[typeName]);
      }
      if typeName !in registrations {
        return Failure(Error(NotRegisteredMessage(typeName)));
      }
      var reg := registrations[typeName];
      var params := SortParams(typeName);
      var args := ResolveAll(C.Types(params), fuel - 1);
      if args.Failure? {
        return Failure(args.error);
      }
      var o := realm.AllocateObject(reg.ctor.name, reg.ctor.prototype);
      var call := realm.CallAsMethod(reg.ctor, o, args.value);
      if call.Failure? {
        return Failure(call.error);
      }
      r := Success(o);
    }

    /**
     * `params.sort(...)` on the stored registration's parameters: they are
     * already in position order, so the registrations stay as they were.
     */
    method SortParams(typeName: string) returns (params: seq<Argument>)
      requires Valid() && typeName in registrations
      modifies this
      ensures registrations == old(registrations) && instances == old(instances)
      ensures params == SortArgs(registrations[typeName].args) == registrations[typeName].args
    {
      var reg := registrations[typeName];
      var a := new Argument[|reg.args|](i requires 0 <= i < |reg.args| => reg.args[i]);
      assert a[..] == reg.args;
      GetParams(a);
      SortedUnchanged(reg.args);
      params := a[..];
      registrations := registrations[typeName := reg.(args := params)];
      assert registrations == old(registrations);
    }

    /** The parameter types resolved one after another. */
    method ResolveAll(types: seq<string>, fuel: nat) returns (r: Result<seq<Value>>)
      requires Valid()
      modifies this, realm
      ensures registrations == old(registrations) && instances == old(instances)
      ensures C.Outcome(r, realm.State()) == ResolveAllF(registrations, instances, types, old(realm.State()), fuel)
      decreases fuel, 1
    {
      ghost var w := realm.State();
      var values := [];
      assert types[0..] == types;
      assert forall vs: seq<Value> :: [] + vs == vs;
      for i := 0 to |types|
        invariant registrations == old(registrations) && instances == old(instances)
        invariant ResolveAllF(registrations, instances, types, w, fuel) ==
                  C.Prepend(values, ResolveAllF(registrations, instances, types[i..], realm.State(), fuel))
      {
        var v := Resolve(types[i], fuel);
        assert types[i..][1..] == types[i + 1..];
        if v.Failure? {
          return Failure(v.error);
        }
        ghost var rest := ResolveAllF(registrations, instances, types[i + 1..], realm.State(), fuel);
        assert rest.result.Success? ==> values + ([v.value] + rest.result.value) == (values + [v.value]) + rest.result.value;
        values := values + [v.value];
      }
      assert types[|types|..] == [] && values + [] == values;
      r := Success(values);
    }
  }

  // ---------------------------------------------------------------------
  // The object builder of src/builder.js

  /**
   * The parameter types resolved in order through the container's
   * `resolverSync`, stopping at the first failure.
   */
  function ResolveArgs(params: seq<Argument>, resolve: string -> Result<Value>): Result<seq<Value>>
    decreases |params|
  {
    if params == [] then Success([])
    else
      var n := |params| - 1;
      match ResolveArgs(params[..n], resolve)
      case Failure(e) => Failure(e)
      case Success(vs) =>
        match resolve(params[n].argType)
        case Failure(e) => Failure(e)
        case Success(v) => Success(vs + [v])
  }

  /**
   * The arguments are each parameter's resolved value, in order, exactly
   * when every parameter resolves.
   */
  lemma {:induction false} ResolveArgsSuccess(params: seq<Argument>, resolve: string -> Result<Value>)
    ensures ResolveArgs(params, resolve).Success? <==> forall i :: 0 <= i < |params| ==> resolve(params[i].argType).Success?
    ensures ResolveArgs(params, resolve).Success? ==>
            var vs := ResolveArgs(params, resolve).value;
            |vs| == |params| && forall i :: 0 <= i < |params| ==> vs[i] == resolve(params[i].argType).value
    decreases |params|
  {
    if params != [] {
      var n := |params| - 1;
      ResolveArgsSuccess(params[..n], resolve);
      assert forall i :: 0 <= i < n ==> params[..n][i] == params[i];
    }
  }

  /** Once the parameters before `j` resolve and parameter `j` does not, its failure is reported. */
  lemma {:induction false} ResolveStopsAt(params: seq<Argument>, resolve: string -> Result<Value>, j: nat)
    requires j < |params| && ResolveArgs(params[..j], resolve).Success? && resolve(params[j].argType).Failure?
    ensures ResolveArgs(params, resolve) == Failure(resolve(params[j].argType).error)
    decreases |params|
  {
    var n := |params| - 1;
    if j < n {
      assert params[..n][..j] == params[..j];
      ResolveStopsAt(params[..n], resolve, j);
    }
  }

  /** The failure reported is the first parameter's that does not resolve. */
  lemma FirstUnresolved(params: seq<Argument>, resolve: string -> Result<Value>, j: nat)
    requires j < |params| && resolve(params[j].argType).Failure?
    requires forall i :: 0 <= i < j ==> resolve(params[i].argType).Success?
    ensures ResolveArgs(params, resolve) == Failure(resolve(params[j].argType).error)
  {
    ResolveArgsSuccess(params[..j], resolve);
    ResolveStopsAt(params, resolve, j);
  }

  /**
   * `newInstanceSync(typeInfo, handlerConfigs)`: the parameters sorted in
   * place, resolved in that order, then `invokeCtor`: the constructor runs
   * on `instance`, a fresh object with the constructor's prototype that it
   * fills in, and unless it throws, the methods among the object's own
   * enumerable `keys` are wrapped by the handler configurations.
   */
  method NewInstanceSync(params: array<Argument>, ctor: Function, configs: seq<W.HandlerConfig>,
                         resolve: string -> Result<Value>, instance: W.Instance, keys: seq<string>)
    returns (r: Result<Value>, ctorArgs: seq<Value>)
    requires W.Distinct(keys) && forall k :: k in keys ==> k in instance.own
    modifies params, instance
    ensures params[..] == SortArgs(old(params[..]))
    ensures var args := ResolveArgs(SortArgs(old(params[..])), resolve);
            if args.Failure? then r == Failure(args.error) && instance.own == old(instance.own)
            else if ctor.behaviour.Throws? then
              r == Failure(Thrown(ctor.behaviour.thrown)) && ctorArgs == args.value && instance.own == old(instance.own)
            else
              r == Success(instance.self) && ctorArgs == args.value &&
              instance.own == W.InterceptAll(old(instance.own), instance.inherited, instance.self, keys, configs)
  {
    GetParams(params);
    var sorted := params[..];
    var values := [];
    ctorArgs := [];
    for i := 0 to |sorted|
      invariant ResolveArgs(sorted[..i], resolve) == Success(values)
    {
      assert sorted[..i + 1][..i] == sorted[..i];
      var v := resolve(sorted[i].argType);
      if v.Failure? {
        ResolveStopsAt(sorted, resolve, i);
        return Failure(v.error), ctorArgs;
      }
      values := values + [v.value];
    }
    assert sorted[..|sorted|] == sorted;
    ctorArgs := values;
    if ctor.behaviour.Throws? {
      return Failure(Thrown(ctor.behaviour.thrown)), ctorArgs;
    }
    W.WrapMethods(instance, keys, configs);
    r := Success(instance.self);
  }
}
