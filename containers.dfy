/**
 * The registration and resolution engine: `Container` (src/container.ts,
 * src/container.js) together with the object builder it resolves
 * constructor parameters through (src/object-builder.ts,
 * src/object-builder.js) and the injections it runs on what it resolves
 * (src/injection.ts, src/injection.js).  The three call one another
 * recursively, so they share this module.
 *
 * Everything a resolution changes lives in a `World`: the own properties of
 * the objects it touches, the cells of memory lifetimes, the next free
 * reference and the log of calls into opaque code (constructors, factories
 * and injected methods, with their arguments).  `Resolve` and its helpers
 * are the specification: pure functions from a world to an outcome and the
 * next world.  The classes `Realm`, `Context` and `Container` below carry
 * out the same steps imperatively, as the source does (pushing and popping
 * the resolution history, storing into lifetimes, writing properties), and
 * each of their methods is proved to agree with the specification.
 *
 * A resolution that recurses forever in JavaScript ends when the call stack
 * is exhausted.  `fuel` is that stack: each nested resolution uses one unit,
 * and resolving with none left fails with a `RangeError`.
 */
module Containers {
  import opened Js
  import opened Signatures
  import opened Lifetimes
  import opened DependencyGraph
  import opened ObjectBuilding

  // ---------------------------------------------------------------------
  // Registrations

  /** An injection, run on every instance its registration produces. */
  datatype Injection =
    | PropertyValueInjection(propertyName: string, value: Value)   // `object[propertyName] = value`
    | PropertyInjection(propertyName: string, valueKey: string)    // `object[propertyName] = resolve(valueKey)`
    | MethodInjection(methodName: string, args: Option<seq<Value>>) // `object[methodName](...args)`
    | BaseInjection                                                 // src/injection.js's base class

  /** What a registration produces an instance from. */
  datatype Source =
    | TypeSource(typeInfo: TypeInfo)      // `TypeRegistration`
    | InstanceSource(instance: Value)     // `InstanceRegistration`
    | FactorySource(factory: Function)    // `FactoryRegistration`
    | DelegateSource(delegateKey: string) // `DelegateRegistration`

  datatype Registration = Registration(name: string, lifetime: Lifetime, injections: seq<Injection>, source: Source)

  /** The options a `register*` method works from, after its arguments are normalised. */
  datatype Options = Options(
    key: Option<string>,
    lifetime: Option<Lifetime>,
    injections: Option<seq<Injection>>,
    argAlias: Option<string>)

  /** An option string that is present and non-empty, i.e. truthy. */
  predicate Given(s: Option<string>)
  {
    s.Some? && s.value != ""
  }

  /** The key a possibly absent option string stands for (absent and empty are both falsy). */
  function KeyOf(s: Option<string>): string
  {
    if s.Some? then s.value else ""
  }

  /** `new Registration(name, lifetime, injections)`: a falsy lifetime is transient, falsy injections none. */
  function NewRegistration(name: string, o: Options, source: Source): (r: Registration)
    ensures r.lifetime == (if o.lifetime.Some? then o.lifetime.value else Transient)
    ensures r.injections == (if o.injections.Some? then o.injections.value else [])
    ensures r.name == name && r.source == source
  {
    Registration(name,
      if o.lifetime.Some? then o.lifetime.value else Transient,
      if o.injections.Some? then o.injections.value else [],
      source)
  }

  /** The second argument of the `register*` methods of src/container.ts. */
  datatype RegistrationArgs = NoArgs | KeyArg(key: string) | OptionsArg(options: Options)

  /**
   * `resolveSignatureToOptions` of src/container.ts: a string is the key;
   * otherwise each option keeps its value when truthy, and the injections
   * default to none.
   */
  function ResolveSignatureToOptions(a: RegistrationArgs): (o: Options)
    ensures a.KeyArg? ==> o == Options(Some(a.key), None, None, None)
    ensures !a.KeyArg? ==> o.injections.Some? && o.lifetime == (if a.OptionsArg? then a.options.lifetime else None)
    ensures a.OptionsArg? ==> (Given(o.key) <==> Given(a.options.key)) && (Given(o.key) ==> o.key == a.options.key)
    ensures a.OptionsArg? ==> (Given(o.argAlias) <==> Given(a.options.argAlias)) && (Given(o.argAlias) ==> o.argAlias == a.options.argAlias)
    ensures !a.OptionsArg? ==> o.argAlias == None
  {
    match a
    case KeyArg(key) => Options(Some(key), None, None, None)
    case NoArgs => Options(None, None, Some([]), None)
    case OptionsArg(opts) =>
      Options(if Given(opts.key) then opts.key else None,
              opts.lifetime,
              Some(if opts.injections.Some? then opts.injections.value else []),
              if Given(opts.argAlias) then opts.argAlias else None)
  }

  /**
   * One positional argument of the `register*` methods of src/container.js:
   * a plain value, an options object, a lifetime or an injection (the last
   * three are objects).
   */
  datatype Arg = Plain(v: Value) | OptionsObject(options: Options) | LifetimeArg(l: Lifetime) | InjectionArg(i: Injection)

  /** What src/container.js accepts after the constructor: `(options)` or `(key, lifetime, ...injections)`. */
  predicate WellTypedArgs(args: seq<Arg>)
  {
    && (|args| > 1 ==> args[1].LifetimeArg? || (args[1].Plain? && !Truthy(args[1].v)))
    && (forall i :: 2 <= i < |args| ==> args[i].InjectionArg?)
  }

  function InjectionsOf(args: seq<Arg>): (r: seq<Injection>)
    requires forall i :: 0 <= i < |args| ==> args[i].InjectionArg?
    ensures |r| == |args| && forall i :: 0 <= i < |args| ==> r[i] == args[i].i
  {
    seq(|args|, i requires 0 <= i < |args| => args[i].i)
  }

  /**
   * `resolveSignatureToOptions` of src/container.js: no arguments give `{}`;
   * an object first argument is itself the options (an object that is not an
   * options object carries none of them); otherwise a string first argument
   * is the key, a truthy second argument the lifetime and the rest the
   * injections.
   */
  function PositionalOptions(args: seq<Arg>): (o: Options)
    requires WellTypedArgs(args)
    ensures |args| == 0 ==> o == Options(None, None, None, None)
    ensures |args| > 0 && args[0].OptionsObject? ==> o == args[0].options
    ensures |args| > 0 && !args[0].OptionsObject? && !(args[0].Plain? && args[0].v.Obj?) && !(args[0].LifetimeArg? || args[0].InjectionArg?) ==>
              && o.key == (if args[0].v.Str? then Some(args[0].v.s) else None)
              && o.lifetime == (if |args| > 1 && args[1].LifetimeArg? then Some(args[1].l) else None)
              && o.injections == Some(InjectionsOf(if |args| > 2 then args[2..] else []))
              && o.argAlias == None
  {
    if |args| == 0 then Options(None, None, None, None)
    else match args[0]
      case OptionsObject(opts) => opts
      case LifetimeArg(_) => Options(None, None, None, None)
      case InjectionArg(_) => Options(None, None, None, None)
      case Plain(v) =>
        if v.Obj? then Options(None, None, None, None)
        else
          Options(if v.Str? then Some(v.s) else None,
                  if |args| > 1 && args[1].LifetimeArg? then Some(args[1].l) else None,
                  Some(InjectionsOf(if |args| > 2 then args[2..] else [])),
                  None)
  }

  /**
   * The options `registerTypeAndArgAlias` and `registerInstanceAndArgAlias`
   * pass on: with the alias left out, the key is taken as the alias and the
   * key becomes null.
   */
  function AndArgAliasOptions(key: Value, alias: Value): (o: Options)
    requires key.Str? || key.Null? || key.Undefined?
    requires alias.Str? || alias.Null? || alias.Undefined?
    ensures alias.Undefined? ==> o.key == None && o.argAlias == (if key.Str? then Some(key.s) else None)
    ensures !alias.Undefined? ==> o.key == (if key.Str? then Some(key.s) else None) && o.argAlias == (if alias.Str? then Some(alias.s) else None)
  {
    var (k, a) := if alias.Undefined? then (Null, key) else (key, alias);
    Options(if k.Str? then Some(k.s) else None, None, None, if a.Str? then Some(a.s) else None)
  }

  // ---------------------------------------------------------------------
  // Error messages

  const CallStackExceeded := RangeError("Maximum call stack size exceeded")
  const NotAConstructor := TypeError("ctor is not a constructor")
  const ArgAliasHint := "; you may be missing a doc comment or a call to registerAliasAsArg"
  const InvalidKeyMessage := "Invalid registration key"
  const InstanceKeyMessage := "Key not provided while registering instance"
  const FactoryKeyMessage := "\"options.key\" must be passed to registerFactory()"

  function Quote(name: string): string
  {
    "\"" + name + "\""
  }

  function QuoteAll(names: seq<string>): (r: seq<string>)
    ensures |r| == |names| && forall i :: 0 <= i < |names| ==> r[i] == Quote(names[i])
  {
    seq(|names|, i requires 0 <= i < |names| => Quote(names[i]))
  }

  /**
   * `getHistoryString(context, current)`: the names on the history, then
   * `current` when it is truthy, each quoted, joined by arrows.
   */
  function HistoryString(history: seq<string>, current: string): string
  {
    Join(QuoteAll(if current != "" then history + [current] else history), " -> ")
  }

  function UnregisteredPrefix(key: string): string
  {
    "Nothing with key " + Quote(key) + " is registered in the container"
  }

  /**
   * `getUnregisteredErrorMessage(key, context)`: the basic message, then
   * the chain being resolved when the history is non-empty, then the hint
   * when the key is an implicit `$arg:` key.
   */
  function UnregisteredMessage(key: string, history: seq<string>): string
  {
    UnregisteredPrefix(key)
    + (if |history| > 0 then "; error occurred while resolving " + HistoryString(history, key) else "")
    + (if StartsWith(key, ArgPrefix) then ArgAliasHint else "")
  }

  /** Every part of the message is there, in order, each exactly when its condition holds. */
  lemma UnregisteredParts(key: string, history: seq<string>)
    ensures StartsWith(UnregisteredMessage(key, history), UnregisteredPrefix(key))
    ensures |history| > 0 && !StartsWith(key, ArgPrefix) ==>
              UnregisteredMessage(key, history) ==
              UnregisteredPrefix(key) + "; error occurred while resolving " + HistoryString(history, key)
    ensures |history| == 0 ==>
              UnregisteredMessage(key, history) ==
              UnregisteredPrefix(key) + (if StartsWith(key, ArgPrefix) then ArgAliasHint else "")
  {
    var m := UnregisteredMessage(key, history);
    var p := UnregisteredPrefix(key);
    assert m[..|p|] == p;
  }

  lemma HistoryChain()
    ensures HistoryString(["Foo", "Bar"], "Bat") == "\"Foo\" -> \"Bar\" -> \"Bat\""
  {
    var names := ["Foo", "Bar"] + ["Bat"];
    var quoted := QuoteAll(names);
    var q := ["\"Foo\"", "\"Bar\"", "\"Bat\""];
    assert quoted == q by {
      assert |names| == 3 && names[0] == "Foo" && names[1] == "Bar" && names[2] == "Bat";
      assert Quote("Foo") == q[0] && Quote("Bar") == q[1] && Quote("Bat") == q[2];
    }
    assert q[..2] == ["\"Foo\"", "\"Bar\""];
    assert q[..2][..1] == ["\"Foo\""];
    assert Join(q[..2], " -> ") == "\"Foo\" -> \"Bar\"";
  }

  /** The error the container throws for an unregistered key on the resolution chain `"Foo" -> "Bar" -> "Bat"`. */
  lemma ChainMessage()
    ensures UnregisteredMessage("Bat", ["Foo", "Bar"]) ==
            UnregisteredPrefix("Bat") + "; error occurred while resolving " + "\"Foo\" -> \"Bar\" -> \"Bat\""
  {
    assert !StartsWith("Bat", ArgPrefix) by {
      assert "Bat"[0] != ArgPrefix[0];
    }
    HistoryChain();
  }

  lemma HintHistory()
    ensures HistoryString(["Foo"], "$arg:bar") == "\"Foo\" -> \"$arg:bar\""
  {
    var quoted := QuoteAll(["Foo"] + ["$arg:bar"]);
    assert quoted == ["\"Foo\"", "\"$arg:bar\""] by {
      assert Quote("Foo") == "\"Foo\"" && Quote("$arg:bar") == "\"$arg:bar\"";
    }
    assert quoted[..1] == ["\"Foo\""];
    assert HistoryString(["Foo"], "$arg:bar") == Join(quoted, " -> ");
  }

  /**
   * The error for a parameter without a doc comment whose implicit key was
   * never registered: the chain and then the hint.
   */
  lemma ArgHintMessage()
    ensures UnregisteredMessage("$arg:bar", ["Foo"]) ==
            UnregisteredPrefix("$arg:bar") + "; error occurred while resolving " + "\"Foo\" -> \"$arg:bar\"" + ArgAliasHint
  {
    assert StartsWith("$arg:bar", ArgPrefix) by {
      assert "$arg:bar"[..|ArgPrefix|] == ArgPrefix;
    }
    HintHistory();
  }

  /** The cycle error of `registerType`, wrapping the graph's message. */
  function CycleError(key: string, message: string): Exception
  {
    Error(key + "'s dependencies create a cycle: " + message)
  }

  function MethodMissingMessage(methodName: string): string
  {
    "Cannot perform method injection because the object does not have a method \"" + methodName + "\""
  }

  /** src/object-builder.ts refuses a type whose header cannot be constructed with `new`. */
  function NotConstructableMessage(name: string): string
  {
    "Unable to construct class from type " + name
  }

  // ---------------------------------------------------------------------
  // The world a resolution changes

  /** A call into opaque code, as it is made. */
  datatype Call =
    | Construct(ctor: Function, args: seq<Value>)                // `new ctor(...args)`
    | Invoke(fn: Function, args: seq<Value>)                     // `fn(...args)`
    | InvokeMethod(fn: Function, receiver: Value, args: seq<Value>) // `fn.call(receiver, ...args)`

  datatype World = World(
    objects: map<nat, map<string, Value>>,  // own properties of objects, by reference
    cells: map<nat, Value>,                 // memory lifetime cells
    next: nat,                              // the next unused reference
    log: seq<Call>)

  /** A result together with the world after computing it. */
  datatype Outcome<T> = Outcome(result: Result<T>, world: World)

  /** A later world: the log only grows and references only advance. */
  predicate Extends(w: World, w': World)
  {
    w.next <= w'.next && w.log <= w'.log
  }

  function PropsOf(w: World, ref: nat): map<string, Value>
  {
    if ref in w.objects then w.objects[ref] else map[]
  }

  /** A fresh object whose constructor is named `ctorName`. */
  function Allocate(w: World, ctorName: string, props: map<string, Value>): (r: (Value, World))
    ensures r.0 == Obj(w.next, Some(ctorName)) && w.next !in w.objects ==> r.0.ref !in w.objects
    ensures r.1 == w.(objects := w.objects[w.next := props], next := w.next + 1)
  {
    (Obj(w.next, Some(ctorName)), w.(objects := w.objects[w.next := props], next := w.next + 1))
  }

  /**
   * `new ctor(...args)`: an ordinary constructor returns nothing and `new`
   * yields the fresh object, with the constructor's prototype members; a
   * constructor returning an object yields that object instead.
   */
  function ConstructF(f: Function, args: seq<Value>, w: World): (r: Outcome<Value>)
    ensures r.world.log == w.log + [Construct(f, args)]
    ensures Extends(w, r.world)
  {
    var w1 := w.(log := w.log + [Construct(f, args)]);
    match f.behaviour
    case Throws(t) => Outcome(Failure(Thrown(t)), w1)
    case ReturnsNew(name) => var (v, w2) := Allocate(w1, name, map[]); Outcome(Success(v), w2)
    case Returns(v) =>
      if v.Obj? || v.Fn? then Outcome(Success(v), w1)
      else var (o, w2) := Allocate(w1, f.name, f.prototype); Outcome(Success(o), w2)
  }

  /** `fn(...args)` for its result. */
  function CallF(f: Function, args: seq<Value>, w: World): (r: Outcome<Value>)
    ensures r.world.log == w.log + [Invoke(f, args)]
    ensures Extends(w, r.world)
  {
    var w1 := w.(log := w.log + [Invoke(f, args)]);
    match f.behaviour
    case Throws(t) => Outcome(Failure(Thrown(t)), w1)
    case ReturnsNew(name) => var (v, w2) := Allocate(w1, name, map[]); Outcome(Success(v), w2)
    case Returns(v) => Outcome(Success(v), w1)
  }

  /** `fn.call(receiver, ...args)` for its effect; the result is dropped. */
  function CallMethodF(f: Function, receiver: Value, args: seq<Value>, w: World): (r: Outcome<()>)
    ensures r.world == w.(log := w.log + [InvokeMethod(f, receiver, args)])
    ensures r.result.Failure? <==> f.behaviour.Throws?
  {
    var w1 := w.(log := w.log + [InvokeMethod(f, receiver, args)]);
    if f.behaviour.Throws? then Outcome(Failure(Thrown(f.behaviour.thrown)), w1) else Outcome(Success(()), w1)
  }

  /**
   * `target[p] = v` in strict code: an object gets the property, a function
   * value accepts it (its own properties are not modelled), and `undefined`,
   * `null` and primitives throw.
   */
  function SetPropertyF(target: Value, p: string, v: Value, w: World): (r: Outcome<()>)
    ensures target.Obj? ==> r == Outcome(Success(()), w.(objects := w.objects[target.ref := PropsOf(w, target.ref)[p := v]]))
    ensures r.result.Failure? <==> !(target.Obj? || target.Fn?)
    ensures r.result.Failure? ==> r.world == w && r.result.error.TypeError?
    ensures Extends(w, r.world)
  {
    match target
    case Obj(ref, _) => Outcome(Success(()), w.(objects := w.objects[ref := PropsOf(w, ref)[p := v]]))
    case Fn(_) => Outcome(Success(()), w)
    case Undefined => Outcome(Failure(TypeError("Cannot set properties of undefined (setting '" + p + "')")), w)
    case Null => Outcome(Failure(TypeError("Cannot set properties of null (setting '" + p + "')")), w)
    case _ => Outcome(Failure(TypeError("Cannot create property '" + p + "' on " + TypeOf(target) + " '" + ToJsString(target) + "'")), w)
  }

  /** `target[p]`: `undefined` and `null` throw; members of built-in prototypes are not modelled. */
  function GetPropertyF(target: Value, p: string, w: World): (r: Result<Value>)
    ensures target.Obj? ==> r == Success(if p in PropsOf(w, target.ref) then PropsOf(w, target.ref)[p] else Undefined)
    ensures r.Failure? <==> target.Undefined? || target.Null?
  {
    match target
    case Obj(ref, _) => var props := PropsOf(w, ref); Success(if p in props then props[p] else Undefined)
    case Undefined => Failure(TypeError("Cannot read properties of undefined (reading '" + p + "')"))
    case Null => Failure(TypeError("Cannot read properties of null (reading '" + p + "')"))
    case _ => Success(Undefined)
  }

  // ---------------------------------------------------------------------
  // Keys

  /** The string key of a resolution key: a constructor stands for its name. */
  function KeyName(key: Value): string
    requires key.Str? || key.Fn?
  {
    if key.Fn? then key.f.name else key.s
  }

  /** `object?.constructor?.name || '?'`, the owner shown in an injection's history entry. */
  function ContextName(v: Value): (r: string)
    ensures r != ""
  {
    match ConstructorName(v)
    case Some(n) => if n != "" then n else "?"
    case None => "?"
  }

  /**
   * `getKeyFromInstance(instance)`.  src/container.ts reads the constructor
   * name of an object (failing on an object without a constructor) and gives
   * null for anything else; src/container.js gives a falsy instance itself,
   * otherwise its constructor's name, or undefined when it has no
   * constructor.
   */
  function KeyFromInstance(d: Dialect, instance: Value): (r: Result<Value>)
    ensures r.Success? ==> r.value.Str? || !Truthy(r.value)
    ensures r.Failure? <==> d == TypeScript && instance.Obj? && instance.ctorName.None?
    ensures d == TypeScript && !instance.Obj? ==> r == Success(Null)
    ensures d == TypeScript && instance.Obj? && instance.ctorName.Some? ==> r == Success(Str(instance.ctorName.value))
    ensures d == JavaScript && !Truthy(instance) ==> r == Success(instance)
    ensures d == JavaScript && Truthy(instance) ==>
              r == Success(if ConstructorName(instance).Some? then Str(ConstructorName(instance).value) else Undefined)
  {
    match d
    case TypeScript =>
      if instance.Obj? then
        match instance.ctorName
        case Some(n) => Success(Str(n))
        case None => Failure(TypeError(NoConstructorMessage))
      else Success(Null)
    case JavaScript =>
      if !Truthy(instance) then Success(instance)
      else match ConstructorName(instance)
        case Some(n) => Success(Str(n))
        case None => Success(Undefined)
  }

  /**
   * The key `injectSync(instance, key)` looks the registration up under:
   * `key`, or else the key taken from the instance.  src/container.ts
   * insists on a truthy key; src/container.js goes on with whatever it got.
   */
  function InjectionKey(d: Dialect, instance: Value, key: string): (r: Result<Value>)
    ensures key != "" ==> r == Success(Str(key))
    ensures d == TypeScript && r.Success? ==> r.value.Str? && r.value.s != ""
  {
    if key != "" then Success(Str(key))
    else match KeyFromInstance(d, instance)
      case Failure(err) => Failure(err)
      case Success(k) =>
        if d == TypeScript && !Truthy(k) then Failure(Error(InvalidKeyMessage)) else Success(k)
  }

  /** The unregistered-key error of `injectSync`, whose message builder calls `key.startsWith`. */
  function UnregisteredKeyError(key: Value): Exception
  {
    match key
    case Str(s) => Error(UnregisteredMessage(s, []))
    case Undefined => TypeError("Cannot read properties of undefined (reading 'startsWith')")
    case Null => TypeError("Cannot read properties of null (reading 'startsWith')")
    case _ => TypeError("key.startsWith is not a function")
  }

  // ---------------------------------------------------------------------
  // Resolution, specified

  /** What resolution works from: the dialect, the registrations and the container itself. */
  datatype Env = Env(dialect: Dialect, regs: map<string, Registration>, self: Value)

  /** The keys of the parameters, in order. */
  function Types(args: seq<Argument>): (r: seq<string>)
    ensures |r| == |args| && forall i :: 0 <= i < |args| ==> r[i] == args[i].argType
  {
    seq(|args|, i requires 0 <= i < |args| => args[i].argType)
  }

  /**
   * `resolveSync(key, context)`: an unregistered key fails; a truthy value
   * from the lifetime is returned as it is; otherwise the registration is
   * pushed onto the history, its instance produced, the history popped, the
   * injections run and the instance stored in the lifetime.
   */
  function Resolve(e: Env, key: string, history: seq<string>, w: World, fuel: nat): (r: Outcome<Value>)
    ensures Extends(w, r.world)
    decreases fuel, 0
  {
    if fuel == 0 then Outcome(Failure(CallStackExceeded), w)
    else if key !in e.regs then Outcome(Failure(Error(UnregisteredMessage(key, history))), w)
    else
      var reg := e.regs[key];
      var existing := Fetch(reg.lifetime, w.cells);
      if Truthy(existing) then Outcome(Success(existing), w)
      else
        var made := Produce(e, reg.source, history + [reg.name], w, fuel - 1);
        if made.result.Failure? then made
        else
          var injected := InjectInto(e, made.result.value, key, made.world, fuel - 1);
          if injected.result.Failure? then Outcome(Failure(injected.result.error), injected.world)
          else Outcome(made.result, injected.world.(cells := Store(reg.lifetime, injected.world.cells, made.result.value)))
  }

  /** The instance a registration produces on a cache miss. */
  function Produce(e: Env, source: Source, history: seq<string>, w: World, fuel: nat): (r: Outcome<Value>)
    ensures Extends(w, r.world)
    decreases fuel, 3
  {
    match source
    case InstanceSource(v) => Outcome(Success(v), w)
    case TypeSource(ti) => NewInstance(e, ti, history, w, fuel)
    case FactorySource(f) => CallF(f, [e.self], w)
    case DelegateSource(k) => Resolve(e, k, history, w, fuel)
  }

  /**
   * `builder.newInstanceSync(typeInfo, context)`: the parameters sorted by
   * position, each resolved in turn with the same history, then the
   * constructor called with the results in that order.
   */
  function NewInstance(e: Env, ti: TypeInfo, history: seq<string>, w: World, fuel: nat): (r: Outcome<Value>)
    ensures Extends(w, r.world)
    decreases fuel, 2
  {
    var resolved := ResolveEach(e, Types(SortArgs(ti.args)), history, w, fuel);
    if resolved.result.Failure? then Outcome(Failure(resolved.result.error), resolved.world)
    else BuildObject(e.dialect, ti, resolved.result.value, resolved.world)
  }

  /**
   * Calling the constructor: src/object-builder.ts refuses a type whose
   * flag says it is not constructable, with its own error; otherwise, and
   * always in src/object-builder.js, `new` is applied, and it throws a
   * `TypeError` on a function that is not a constructor.
   */
  function BuildObject(d: Dialect, ti: TypeInfo, args: seq<Value>, w: World): (r: Outcome<Value>)
    ensures d == TypeScript && !ti.constructable ==> r == Outcome(Failure(Error(NotConstructableMessage(ti.name))), w)
    ensures (d == JavaScript || ti.constructable) && !ti.ctor.newable ==> r == Outcome(Failure(NotAConstructor), w)
    ensures (d == JavaScript || ti.constructable) && ti.ctor.newable ==> r == ConstructF(ti.ctor, args, w)
    ensures Extends(w, r.world)
  {
    if d == TypeScript && !ti.constructable then Outcome(Failure(Error(NotConstructableMessage(ti.name))), w)
    else if !ti.ctor.newable then Outcome(Failure(NotAConstructor), w)
    else ConstructF(ti.ctor, args, w)
  }

  /**
   * `function(a) {}` registered under a key in src/container.js: src/util.js
   * matches its header with the method pattern, which captures the name
   * `function`, so the key is required and used; src/object-builder.js then
   * builds it with `new`, which an ordinary function accepts.
   */
  lemma JsAnonymousFunctionBuilt(f: Function, key: string, args: seq<Value>, w: World)
    requires f.headers.js == Some(Header(MethodHeader, "function", "a")) && f.newable
    requires key != "" && key != "function"
    ensures TypeInfoOf(JavaScript, Fn(f), key, false).Success?
    ensures var ti := TypeInfoOf(JavaScript, Fn(f), key, false).value;
            && ti.name == key && ti.ctor == f
            && BuildObject(JavaScript, ti, args, w) == ConstructF(f, args, w)
  {
  }

  /** Resolving keys one after another, stopping at the first failure. */
  function ResolveEach(e: Env, keys: seq<string>, history: seq<string>, w: World, fuel: nat): (r: Outcome<seq<Value>>)
    ensures Extends(w, r.world)
    ensures r.result.Success? ==> |r.result.value| == |keys|
    decreases fuel, 1, |keys|
  {
    if keys == [] then Outcome(Success([]), w)
    else
      var first := Resolve(e, keys[0], history, w, fuel);
      if first.result.Failure? then Outcome(Failure(first.result.error), first.world)
      else
        var rest := ResolveEach(e, keys[1..], history, first.world, fuel);
        if rest.result.Failure? then rest
        else Outcome(Success([first.result.value] + rest.result.value), rest.world)
  }

  /** `injectSync(instance, key)`: the injections of the registration under the key, in order. */
  function InjectInto(e: Env, instance: Value, key: string, w: World, fuel: nat): (r: Outcome<()>)
    ensures Extends(w, r.world)
    decreases fuel, 4
  {
    match InjectionKey(e.dialect, instance, key)
    case Failure(err) => Outcome(Failure(err), w)
    case Success(k) =>
      var name := ToJsString(k);
      if name !in e.regs then Outcome(Failure(UnregisteredKeyError(k)), w)
      else InjectAll(e, e.regs[name].injections, instance, w, fuel)
  }

  /** Running injections one after another, stopping at the first failure. */
  function InjectAll(e: Env, injections: seq<Injection>, instance: Value, w: World, fuel: nat): (r: Outcome<()>)
    ensures Extends(w, r.world)
    decreases fuel, 3, |injections|
  {
    if injections == [] then Outcome(Success(()), w)
    else
      var first := InjectOne(e, injections[0], instance, w, fuel);
      if first.result.Failure? then first
      else InjectAll(e, injections[1..], instance, first.world, fuel)
  }

  /** The history an injection resolves with: one entry naming the member in src/injection.ts, none in src/injection.js. */
  function InjectionHistory(d: Dialect, instance: Value, member: string): seq<string>
  {
    if d == TypeScript then [ContextName(instance) + "." + member] else []
  }

  /** `injection.injectSync(instance, container)`. */
  function InjectOne(e: Env, injection: Injection, instance: Value, w: World, fuel: nat): (r: Outcome<()>)
    ensures Extends(w, r.world)
    decreases fuel, 2
  {
    match injection
    case BaseInjection => Outcome(Failure(Error("Not implemented")), w)
    case PropertyValueInjection(p, v) => SetPropertyF(instance, p, v, w)
    case PropertyInjection(p, valueKey) =>
      var resolved := Resolve(e, valueKey, InjectionHistory(e.dialect, instance, p), w, fuel);
      if resolved.result.Failure? then Outcome(Failure(resolved.result.error), resolved.world)
      else SetPropertyF(instance, p, resolved.result.value, resolved.world)
    case MethodInjection(m, explicitArgs) =>
      match GetPropertyF(instance, m, w)
      case Failure(err) => Outcome(Failure(err), w)
      case Success(found) =>
        if !found.Fn? then Outcome(Failure(Error(MethodMissingMessage(m))), w)
        else if explicitArgs.Some? then CallMethodF(found.f, instance, explicitArgs.value, w)
        else
          var info := if e.dialect == TypeScript then TypeInfoOf(TypeScript, found, "$__", true)
                      else TypeInfoOf(JavaScript, found, m, false);
          match info
          case Failure(err) => Outcome(Failure(err), w)
          case Success(ti) =>
            var history := InjectionHistory(e.dialect, instance, m + "()");
            var resolved := ResolveEach(e, Types(ti.args), history, w, fuel);
            if resolved.result.Failure? then Outcome(Failure(resolved.result.error), resolved.world)
            else CallMethodF(found.f, instance, resolved.result.value, resolved.world)
  }

  // ---------------------------------------------------------------------
  // Properties of resolution

  /** After a successful resolution a memory lifetime holds what was resolved. */
  lemma ResolveStores(e: Env, key: string, history: seq<string>, w: World, fuel: nat)
    requires Resolve(e, key, history, w, fuel).result.Success?
    ensures key in e.regs
    ensures e.regs[key].lifetime.Memory? ==>
              Fetch(e.regs[key].lifetime, Resolve(e, key, history, w, fuel).world.cells) == Resolve(e, key, history, w, fuel).result.value
  {
    var reg := e.regs[key];
    if !Truthy(Fetch(reg.lifetime, w.cells)) {
      var r := Resolve(e, key, history, w, fuel);
      var made := Produce(e, reg.source, history + [reg.name], w, fuel - 1);
      var injected := InjectInto(e, made.result.value, key, made.world, fuel - 1);
      assert r.world.cells == Store(reg.lifetime, injected.world.cells, made.result.value);
      FetchAfterStore(reg.lifetime, injected.world.cells, made.result.value);
    }
  }

  /**
   * A memory lifetime makes a singleton: once a key has resolved to a truthy
   * value, every later resolution returns that same value and changes nothing.
   */
  lemma MemorySingleton(e: Env, key: string, history: seq<string>, w: World, fuel: nat, history': seq<string>, fuel': nat)
    requires key in e.regs && e.regs[key].lifetime.Memory?
    requires Resolve(e, key, history, w, fuel).result.Success?
    requires Truthy(Resolve(e, key, history, w, fuel).result.value)
    requires fuel' > 0
    ensures var r := Resolve(e, key, history, w, fuel);
            Resolve(e, key, history', r.world, fuel') == r
  {
    ResolveStores(e, key, history, w, fuel);
  }

  /** A constructor for which `new` yields a freshly allocated object. */
  predicate BuildsFresh(f: Function)
  {
    f.behaviour.ReturnsNew? || (f.behaviour.Returns? && !(f.behaviour.result.Obj? || f.behaviour.result.Fn?))
  }

  /** A transient registration of a type whose constructor builds its own object. */
  predicate TransientType(e: Env, key: string)
  {
    && key in e.regs
    && e.regs[key].lifetime == Transient
    && e.regs[key].source.TypeSource?
    && e.regs[key].source.typeInfo.constructable
    && e.regs[key].source.typeInfo.ctor.newable
    && BuildsFresh(e.regs[key].source.typeInfo.ctor)
  }

  /** A transient type resolves to an object allocated during that resolution. */
  lemma TransientFresh(e: Env, key: string, history: seq<string>, w: World, fuel: nat)
    requires TransientType(e, key)
    requires Resolve(e, key, history, w, fuel).result.Success?
    ensures var r := Resolve(e, key, history, w, fuel);
            r.result.value.Obj? && w.next <= r.result.value.ref < r.world.next
  {
    var reg := e.regs[key];
    var ti := reg.source.typeInfo;
    var h := history + [reg.name];
    assert Produce(e, reg.source, h, w, fuel - 1) == NewInstance(e, ti, h, w, fuel - 1);
    assert NewInstance(e, ti, h, w, fuel - 1).result.Success?;
    var resolved := ResolveEach(e, Types(SortArgs(ti.args)), h, w, fuel - 1);
    assert resolved.result.Success?;
    var built := ConstructF(ti.ctor, resolved.result.value, resolved.world);
    assert NewInstance(e, ti, h, w, fuel - 1) == built;
    assert built.result.value.ref == resolved.world.next;
  }

  /** Two successive resolutions of a transient type give two different objects. */
  lemma TransientDistinct(e: Env, key: string, history: seq<string>, w: World, fuel: nat, fuel': nat)
    requires TransientType(e, key)
    requires Resolve(e, key, history, w, fuel).result.Success?
    requires Resolve(e, key, history, Resolve(e, key, history, w, fuel).world, fuel').result.Success?
    ensures var first := Resolve(e, key, history, w, fuel);
            Resolve(e, key, history, first.world, fuel').result.value != first.result.value
  {
    var first := Resolve(e, key, history, w, fuel);
    TransientFresh(e, key, history, w, fuel);
    TransientFresh(e, key, history, first.world, fuel');
  }

  /**
   * An alias resolves exactly as the key it delegates to, looked up when the
   * alias is resolved, with the alias on the history, one level deeper.
   */
  lemma DelegateFollows(e: Env, alias: string, target: string, history: seq<string>, w: World, fuel: nat)
    requires alias in e.regs && e.regs[alias] == Registration(alias, Transient, [], DelegateSource(target))
    requires alias != "" && fuel > 0
    ensures Resolve(e, alias, history, w, fuel) == Resolve(e, target, history + [alias], w, fuel - 1)
  {
    var made := Resolve(e, target, history + [alias], w, fuel - 1);
    if made.result.Success? {
      assert InjectInto(e, made.result.value, alias, made.world, fuel - 1) == Outcome(Success(()), made.world);
    }
  }

  /** `a` is a transient type whose first constructor parameter is `b`. */
  predicate FirstDependsOn(e: Env, a: string, b: string)
  {
    && a in e.regs
    && e.regs[a].lifetime == Transient
    && e.regs[a].source.TypeSource?
    && |e.regs[a].source.typeInfo.args| > 0
    && SortArgs(e.regs[a].source.typeInfo.args)[0].argType == b
  }

  /**
   * Two types that each need the other first (or one that needs itself)
   * can never be resolved: the recursion exhausts the call stack whatever
   * its depth.  `registerType` reports such a cycle but keeps the
   * registration, so this is what resolving it then does.
   */
  lemma {:induction false} CycleExhaustsStack(e: Env, a: string, b: string, history: seq<string>, w: World, fuel: nat)
    requires FirstDependsOn(e, a, b) && FirstDependsOn(e, b, a)
    ensures Resolve(e, a, history, w, fuel).result == Failure(CallStackExceeded)
    decreases fuel
  {
    if fuel > 0 {
      var reg := e.regs[a];
      var ti := reg.source.typeInfo;
      var h := history + [reg.name];
      var keys := Types(SortArgs(ti.args));
      assert |keys| > 0 && keys[0] == b;
      CycleExhaustsStack(e, b, a, h, w, fuel - 1);
      assert ResolveEach(e, keys, h, w, fuel - 1).result == Failure(CallStackExceeded);
      assert Produce(e, reg.source, h, w, fuel - 1).result == Failure(CallStackExceeded);
    }
  }

  /**
   * A type whose first parameter's key is unregistered fails with the
   * unregistered-key error, naming the type on the chain.
   */
  lemma FirstParamUnregistered(e: Env, key: string, k: string, history: seq<string>, w: World, fuel: nat)
    requires FirstDependsOn(e, key, k) && k !in e.regs
    requires fuel >= 2
    ensures Resolve(e, key, history, w, fuel).result == Failure(Error(UnregisteredMessage(k, history + [e.regs[key].name])))
  {
    var reg := e.regs[key];
    var h := history + [reg.name];
    var keys := Types(SortArgs(reg.source.typeInfo.args));
    assert keys[0] == k;
    assert ResolveEach(e, keys, h, w, fuel - 1).result == Failure(Error(UnregisteredMessage(k, h)));
    assert Produce(e, reg.source, h, w, fuel - 1).result == Failure(Error(UnregisteredMessage(k, h)));
  }

  /** A type that takes no parameters and builds its object with `new`. */
  function Leaf(ctor: Function, name: string): TypeInfo
  {
    TypeInfo([], ctor, name, true)
  }

  function Param(position: nat, key: string): Argument
  {
    Argument(position, key, key, DocComment)
  }

  /**
   * The registrations of `Foo(baz: Baz, bar: Bar)`, `Bar(baz: Baz, bat: Bat)`
   * and `Baz()`, with nothing registered under `Bat`.
   */
  function ChainRegistrations(foo: Function, bar: Function, baz: Function): map<string, Registration>
  {
    map[
      "Foo" := Registration("Foo", Transient, [], TypeSource(TypeInfo([Param(0, "Baz"), Param(1, "Bar")], foo, "Foo", true))),
      "Bar" := Registration("Bar", Transient, [], TypeSource(TypeInfo([Param(0, "Baz"), Param(1, "Bat")], bar, "Bar", true))),
      "Baz" := Registration("Baz", Transient, [], TypeSource(Leaf(baz, "Baz")))]
  }

  lemma LeafResolves(e: Env, key: string, history: seq<string>, w: World, fuel: nat)
    requires key != "" && key in e.regs
    requires e.regs[key].lifetime == Transient && e.regs[key].injections == []
    requires e.regs[key].source.TypeSource? && e.regs[key].source.typeInfo.args == []
    requires e.regs[key].source.typeInfo.constructable && e.regs[key].source.typeInfo.ctor.newable
    requires !e.regs[key].source.typeInfo.ctor.behaviour.Throws?
    requires fuel > 0
    ensures Resolve(e, key, history, w, fuel).result.Success?
  {
    var reg := e.regs[key];
    var made := NewInstance(e, reg.source.typeInfo, history + [reg.name], w, fuel - 1);
    assert Types(SortArgs([])) == [];
    assert ResolveEach(e, [], history + [reg.name], w, fuel - 1) == Outcome(Success([]), w);
    assert made == ConstructF(reg.source.typeInfo.ctor, [], w);
    assert made.result.Success?;
    assert InjectInto(e, made.result.value, key, made.world, fuel - 1).result.Success?;
  }

  /** Resolving `Bar` on behalf of `Foo`: `Baz` resolves, then `Bat` is missing. */
  lemma ChainInner(e: Env, foo: Function, bar: Function, baz: Function, w: World, fuel: nat)
    requires e.regs == ChainRegistrations(foo, bar, baz)
    requires baz.newable && !baz.behaviour.Throws?
    requires fuel >= 2
    ensures Resolve(e, "Bar", ["Foo"], w, fuel).result == Failure(Error(UnregisteredMessage("Bat", ["Foo", "Bar"])))
  {
    var args := [Param(0, "Baz"), Param(1, "Bat")];
    var ti := TypeInfo(args, bar, "Bar", true);
    var h := ["Foo", "Bar"];
    var err := Error(UnregisteredMessage("Bat", h));
    assert ["Foo"] + ["Bar"] == h;
    SortedUnchanged(args);
    assert Types(SortArgs(args)) == ["Baz", "Bat"];
    LeafResolves(e, "Baz", h, w, fuel - 1);
    var w1 := Resolve(e, "Baz", h, w, fuel - 1).world;
    assert Resolve(e, "Bat", h, w1, fuel - 1).result == Failure(err);
    assert ResolveEach(e, ["Bat"], h, w1, fuel - 1).result == Failure(err);
    assert ["Baz", "Bat"][1..] == ["Bat"];
    assert ResolveEach(e, ["Baz", "Bat"], h, w, fuel - 1).result == Failure(err);
    assert NewInstance(e, ti, h, w, fuel - 1).result == Failure(err);
  }

  /**
   * The resolution chain is reported: resolving `Foo` resolves `Baz`, then
   * `Bar`, whose `Bat` is unregistered, so the error names the chain
   * `"Foo" -> "Bar" -> "Bat"` (the finished `Baz` is no longer on it).
   */
  lemma ChainError(e: Env, foo: Function, bar: Function, baz: Function, w: World, fuel: nat)
    requires e.regs == ChainRegistrations(foo, bar, baz)
    requires baz.newable && !baz.behaviour.Throws?
    requires fuel >= 3
    ensures Resolve(e, "Foo", [], w, fuel).result == Failure(Error(UnregisteredMessage("Bat", ["Foo", "Bar"])))
  {
    var args := [Param(0, "Baz"), Param(1, "Bar")];
    var ti := TypeInfo(args, foo, "Foo", true);
    var h := ["Foo"];
    var err := Error(UnregisteredMessage("Bat", ["Foo", "Bar"]));
    assert [] + ["Foo"] == h;
    SortedUnchanged(args);
    assert Types(SortArgs(args)) == ["Baz", "Bar"];
    LeafResolves(e, "Baz", h, w, fuel - 1);
    var w1 := Resolve(e, "Baz", h, w, fuel - 1).world;
    ChainInner(e, foo, bar, baz, w1, fuel - 1);
    assert ResolveEach(e, ["Bar"], h, w1, fuel - 1).result == Failure(err);
    assert ["Baz", "Bar"][1..] == ["Bar"];
    assert ResolveEach(e, ["Baz", "Bar"], h, w, fuel - 1).result == Failure(err);
    assert NewInstance(e, ti, h, w, fuel - 1).result == Failure(err);
  }

  /**
   * A method injection naming something that is not a function fails before
   * anything is resolved or called.
   */
  lemma MethodMissing(e: Env, m: string, args: Option<seq<Value>>, instance: Value, w: World, fuel: nat)
    requires instance.Obj?
    requires m !in PropsOf(w, instance.ref) || !PropsOf(w, instance.ref)[m].Fn?
    ensures InjectOne(e, MethodInjection(m, args), instance, w, fuel) == Outcome(Failure(Error(MethodMissingMessage(m))), w)
  {
  }

  /**
   * A property-value injection on an object sets exactly that property to
   * exactly that value: no other property or object, lifetime cell or call
   * changes.
   */
  lemma PropertyValueSetsOnly(e: Env, p: string, v: Value, instance: Value, w: World, fuel: nat)
    requires instance.Obj?
    ensures var o := InjectOne(e, PropertyValueInjection(p, v), instance, w, fuel);
            && o.result.Success?
            && PropsOf(o.world, instance.ref) == PropsOf(w, instance.ref)[p := v]
            && (forall ref :: ref != instance.ref ==> PropsOf(o.world, ref) == PropsOf(w, ref))
            && o.world.cells == w.cells && o.world.log == w.log && o.world.next == w.next
  {
  }

  /**
   * A property injection resolves its key with the history
   * `<constructor name>.<property>` in src/injection.ts (none in
   * src/injection.js); an unregistered key fails with that chain and
   * nothing is set.
   */
  lemma PropertyInjectionChain(e: Env, p: string, k: string, instance: Value, w: World, fuel: nat)
    requires k !in e.regs && fuel > 0
    ensures InjectOne(e, PropertyInjection(p, k), instance, w, fuel)
            == Outcome(Failure(Error(UnregisteredMessage(k, InjectionHistory(e.dialect, instance, p)))), w)
    ensures e.dialect == TypeScript ==>
              InjectOne(e, PropertyInjection(p, k), instance, w, fuel).result.error.message
              == UnregisteredPrefix(k) + "; error occurred while resolving " + HistoryString([ContextName(instance) + "." + p], k)
                 + (if StartsWith(k, ArgPrefix) then ArgAliasHint else "")
  {
    UnregisteredFails(e, k, InjectionHistory(e.dialect, instance, p), w, fuel);
  }

  /** Explicit method arguments are passed as they are, with the instance as the receiver. */
  lemma MethodArgsVerbatim(e: Env, m: string, args: seq<Value>, instance: Value, f: Function, w: World, fuel: nat)
    requires instance.Obj? && m in PropsOf(w, instance.ref) && PropsOf(w, instance.ref)[m] == Fn(f)
    ensures var o := InjectOne(e, MethodInjection(m, Some(args)), instance, w, fuel);
            && o.world.log == w.log + [InvokeMethod(f, instance, args)]
            && (o.result.Success? <==> !f.behaviour.Throws?)
  {
  }

  /**
   * Without explicit arguments the method's parameters are resolved by
   * their keys, one after another in declaration order, with the history
   * `<constructor name>.<method>()` in src/injection.ts, and the method is
   * called with the results.
   */
  lemma MethodParamsResolved(e: Env, m: string, instance: Value, f: Function, w: World, fuel: nat, i: nat)
    requires instance.Obj? && m in PropsOf(w, instance.ref) && PropsOf(w, instance.ref)[m] == Fn(f)
    requires e.dialect == TypeScript
    requires TypeInfoOf(TypeScript, Fn(f), "$__", true).Success?
    requires var keys := Types(TypeInfoOf(TypeScript, Fn(f), "$__", true).value.args);
             ResolveEach(e, keys, [ContextName(instance) + "." + m + "()"], w, fuel).result.Success?
    requires i < |TypeInfoOf(TypeScript, Fn(f), "$__", true).value.args|
    ensures var keys := Types(TypeInfoOf(TypeScript, Fn(f), "$__", true).value.args);
            var history := [ContextName(instance) + "." + m + "()"];
            var resolved := ResolveEach(e, keys, history, w, fuel);
            var before := ResolveEach(e, keys[..i], history, w, fuel);
            && InjectOne(e, MethodInjection(m, None), instance, w, fuel)
               == CallMethodF(f, instance, resolved.result.value, resolved.world)
            && before.result.Success?
            && Resolve(e, keys[i], history, before.world, fuel).result == Success(resolved.result.value[i])
  {
    var keys := Types(TypeInfoOf(TypeScript, Fn(f), "$__", true).value.args);
    assert ContextName(instance) + "." + (m + "()") == ContextName(instance) + "." + m + "()";
    ResolveEachInOrder(e, keys, [ContextName(instance) + "." + m + "()"], w, fuel, i);
  }

  /**
   * `ResolveEach` resolves in order: the `i`-th value is what resolving the
   * `i`-th key gives in the world left by resolving the keys before it.
   */
  lemma {:induction false} ResolveEachInOrder(e: Env, keys: seq<string>, history: seq<string>, w: World, fuel: nat, i: nat)
    requires ResolveEach(e, keys, history, w, fuel).result.Success? && i < |keys|
    ensures var before := ResolveEach(e, keys[..i], history, w, fuel);
            && before.result.Success?
            && Resolve(e, keys[i], history, before.world, fuel).result
               == Success(ResolveEach(e, keys, history, w, fuel).result.value[i])
    decreases i
  {
    var first := Resolve(e, keys[0], history, w, fuel);
    if i == 0 {
      assert keys[..0] == [];
    } else {
      var rest := keys[1..];
      ResolveEachInOrder(e, rest, history, first.world, fuel, i - 1);
      assert keys[..i][0] == keys[0] && keys[..i][1..] == rest[..i - 1];
      assert keys[i] == rest[i - 1];
    }
  }

  /** The injections of a registration run in list order: a list is its first part, then the rest. */
  lemma {:induction false} InjectAllAppend(e: Env, a: seq<Injection>, b: seq<Injection>, instance: Value, w: World, fuel: nat)
    ensures var first := InjectAll(e, a, instance, w, fuel);
            InjectAll(e, a + b, instance, w, fuel)
            == if first.result.Failure? then first else InjectAll(e, b, instance, first.world, fuel)
    decreases |a|
  {
    if a != [] {
      var one := InjectOne(e, a[0], instance, w, fuel);
      assert (a + b)[0] == a[0] && (a + b)[1..] == a[1..] + b;
      if one.result.Success? {
        InjectAllAppend(e, a[1..], b, instance, one.world, fuel);
      }
    } else {
      assert a + b == b;
    }
  }

  /**
   * `injectSync(instance, key)` in src/container.js on a key nothing is
   * registered under fails with the plain message, without a chain, and
   * changes nothing.
   */
  lemma JsInjectUnregistered(e: Env, instance: Value, key: string, w: World, fuel: nat)
    requires e.dialect == JavaScript && key != "" && key !in e.regs
    ensures InjectInto(e, instance, key, w, fuel)
            == Outcome(Failure(Error(UnregisteredPrefix(key) + (if StartsWith(key, ArgPrefix) then ArgAliasHint else ""))), w)
  {
    UnregisteredParts(key, []);
  }

  /** An unregistered key fails at once, naming the chain, and changes nothing. */
  lemma UnregisteredFails(e: Env, key: string, history: seq<string>, w: World, fuel: nat)
    requires key !in e.regs && fuel > 0
    ensures Resolve(e, key, history, w, fuel) == Outcome(Failure(Error(UnregisteredMessage(key, history))), w)
  {
  }

  // ---------------------------------------------------------------------
  // Registration, specified

  /** The arguments a `register*` method receives after the constructor or instance. */
  datatype Signature = TsSignature(args: RegistrationArgs) | JsSignature(positional: seq<Arg>)

  /** The signature shape the container's own source file accepts. */
  predicate Fits(d: Dialect, sig: Signature)
  {
    match sig
    case TsSignature(_) => d == TypeScript
    case JsSignature(args) => d == JavaScript && WellTypedArgs(args)
  }

  function OptionsOf(sig: Signature): Options
    requires sig.JsSignature? ==> WellTypedArgs(sig.positional)
  {
    match sig
    case TsSignature(a) => ResolveSignatureToOptions(a)
    case JsSignature(args) => PositionalOptions(args)
  }

  /** `{ key, argAlias: alias }`, as the `*AndArgAlias` methods pass it on. */
  function AndArgAliasSignature(d: Dialect, key: Value, alias: Value): (sig: Signature)
    requires key.Str? || key.Null? || key.Undefined?
    requires alias.Str? || alias.Null? || alias.Undefined?
    ensures Fits(d, sig)
    ensures OptionsOf(sig).argAlias == AndArgAliasOptions(key, alias).argAlias || !Given(AndArgAliasOptions(key, alias).argAlias)
  {
    var o := AndArgAliasOptions(key, alias);
    if d == TypeScript then TsSignature(OptionsArg(o)) else JsSignature([OptionsObject(o)])
  }

  /**
   * The key `registerInstance` goes on with: the key option when truthy,
   * else the key taken from the instance.  src/container.ts refuses a falsy
   * one; src/container.js goes on with whatever it got, which need not be a
   * string.
   */
  function InstanceKey(d: Dialect, o: Options, instance: Value): (r: Result<Value>)
    ensures Given(o.key) ==> r == Success(Str(o.key.value))
    ensures d == JavaScript && !Given(o.key) ==> r == KeyFromInstance(d, instance)
    ensures d == JavaScript ==> r.Success?
    ensures d == TypeScript && r.Success? ==> r.value.Str? && r.value.s != ""
    ensures d == TypeScript && !Given(o.key) && KeyFromInstance(d, instance).Success? && !Truthy(KeyFromInstance(d, instance).value) ==>
              r == Failure(Error(InstanceKeyMessage))
  {
    if Given(o.key) then Success(Str(o.key.value))
    else match KeyFromInstance(d, instance)
      case Failure(err) => Failure(err)
      case Success(k) =>
        if d == TypeScript && !Truthy(k) then Failure(Error(InstanceKeyMessage)) else Success(k)
  }

  /** Every registration is stored under its own name. */
  predicate NamedByKey(regs: map<string, Registration>)
  {
    forall k :: k in regs ==> regs[k].name == k
  }

  const KeyNotStringMessage := "key must be a string"
  const AliasNotStringMessage := "alias must be a string"

  /** `regs` with the delegate `registerAlias(key, alias)` stores under the alias. */
  function WithDelegate(regs: map<string, Registration>, key: string, alias: string): map<string, Registration>
  {
    regs[alias := Registration(alias, Transient, [], DelegateSource(key))]
  }

  /**
   * What `registerAlias(key, alias)` does with a string alias, taking the
   * graph `g` and the registrations `regs` to the result `r`, the graph `g'`
   * and the registrations `regs'`: a key that is not a string is refused
   * before anything changes; otherwise the edge from the alias to the key is
   * added and stays, and the delegate is stored exactly when the graph then
   * has no cycle, the error being the graph's own cycle report.
   */
  ghost predicate AliasEffect(key: Value, alias: string, g: Digraph, regs: map<string, Registration>,
                              r: Result<()>, g': Digraph, regs': map<string, Registration>)
    requires WellFormed(g)
  {
    if !key.Str? then
      r == Failure(Error(KeyNotStringMessage)) && g' == g && regs' == regs
    else
      && g' == Added(g, alias, [key.s])
      && (r.Success? <==> !HasMutualPair(g'))
      && (r.Success? ==> regs' == WithDelegate(regs, key.s, alias))
      && (r.Failure? ==> regs' == regs && r.error.Error? && CycleReport(g', r.error.message))
  }

  /** The `if (options.argAlias) registerArgAlias(key, options.argAlias)` step of the `register*` methods. */
  ghost predicate ArgAliasEffect(key: Value, o: Options, g: Digraph, regs: map<string, Registration>,
                                 r: Result<()>, g': Digraph, regs': map<string, Registration>)
    requires WellFormed(g)
  {
    if Given(o.argAlias) then AliasEffect(key, ArgPrefix + o.argAlias.value, g, regs, r, g', regs')
    else r == Success(()) && g' == g && regs' == regs
  }

  /**
   * `addDependencyToGraph(key, deps)`: the edges stay, and a cycle is
   * reported with the graph's message wrapped in the key.
   */
  ghost predicate EdgesEffect(key: string, deps: seq<string>, g: Digraph, r: Result<()>, g': Digraph)
    requires WellFormed(g)
  {
    && g' == Added(g, key, deps)
    && (r.Success? <==> !HasMutualPair(g'))
    && (r.Failure? ==> exists m :: r.error == CycleError(key, m) && CycleReport(g', m))
  }

  /**
   * `registerType(ctor, ...)`: the type information is read with the key
   * option and refused before anything changes; otherwise the registration
   * is stored under the type's name, the arg alias registered (a failure
   * there ends the call) and the type's parameters added to the graph.
   * Whatever fails after the store leaves the registration stored.
   */
  ghost predicate TypeRegistered(d: Dialect, ctor: Value, sig: Signature, g: Digraph, regs: map<string, Registration>,
                                 r: Result<()>, g': Digraph, regs': map<string, Registration>)
    requires WellFormed(g)
    requires sig.JsSignature? ==> WellTypedArgs(sig.positional)
  {
    var o := OptionsOf(sig);
    var info := TypeInfoOf(d, ctor, KeyOf(o.key), false);
    if info.Failure? then r == Failure(info.error) && g' == g && regs' == regs
    else
      var key := info.value.name;
      var stored := regs[key := NewRegistration(key, o, TypeSource(info.value))];
      if !Given(o.argAlias) then
        regs' == stored && EdgesEffect(key, Types(info.value.args), g, r, g')
      else
        var alias := ArgPrefix + o.argAlias.value;
        var g1 := Added(g, alias, [key]);
        AddedWellFormed(g, alias, [key]);
        if HasMutualPair(g1) then AliasEffect(Str(key), alias, g, stored, r, g', regs')
        else regs' == WithDelegate(stored, key, alias) && EdgesEffect(key, Types(info.value.args), g1, r, g')
  }

  /**
   * `registerInstance(instance, ...)`: stored under the key (as a property
   * name), then the arg alias registered with the key as it is.
   */
  ghost predicate InstanceRegistered(d: Dialect, instance: Value, sig: Signature, g: Digraph, regs: map<string, Registration>,
                                     r: Result<()>, g': Digraph, regs': map<string, Registration>)
    requires WellFormed(g)
    requires sig.JsSignature? ==> WellTypedArgs(sig.positional)
  {
    var o := OptionsOf(sig);
    var key := InstanceKey(d, o, instance);
    if key.Failure? then r == Failure(key.error) && g' == g && regs' == regs
    else
      var name := ToJsString(key.value);
      ArgAliasEffect(key.value, o, g, regs[name := NewRegistration(name, o, InstanceSource(instance))], r, g', regs')
  }

  /** `registerFactory(factory, ...)`: a truthy key option is required; then stored, then the arg alias. */
  ghost predicate FactoryRegistered(factory: Function, sig: Signature, g: Digraph, regs: map<string, Registration>,
                                    r: Result<()>, g': Digraph, regs': map<string, Registration>)
    requires WellFormed(g)
    requires sig.JsSignature? ==> WellTypedArgs(sig.positional)
  {
    var o := OptionsOf(sig);
    if !Given(o.key) then r == Failure(Error(FactoryKeyMessage)) && g' == g && regs' == regs
    else
      var key := o.key.value;
      ArgAliasEffect(Str(key), o, g, regs[key := NewRegistration(key, o, FactorySource(factory))], r, g', regs')
  }

  /** An alias the graph does not hold yet, in a graph without cycles, is always stored. */
  lemma FreshAliasStored(key: string, alias: string, g: Digraph, regs: map<string, Registration>,
                         r: Result<()>, g': Digraph, regs': map<string, Registration>)
    requires WellFormed(g) && alias !in g.names && !HasMutualPair(g)
    requires AliasEffect(Str(key), alias, g, regs, r, g', regs')
    ensures r.Success? && regs' == WithDelegate(regs, key, alias)
    ensures alias in regs' && regs'[alias].source == DelegateSource(key)
  {
    AddFreshKeepsAcyclic(g, alias, [key]);
  }

  /**
   * A type registered under a name the graph does not hold yet, without an
   * arg alias, in a graph without cycles, succeeds.
   */
  lemma FreshTypeRegistered(d: Dialect, ctor: Value, sig: Signature, g: Digraph, regs: map<string, Registration>,
                            r: Result<()>, g': Digraph, regs': map<string, Registration>)
    requires sig.JsSignature? ==> WellTypedArgs(sig.positional)
    requires WellFormed(g) && !HasMutualPair(g)
    requires TypeRegistered(d, ctor, sig, g, regs, r, g', regs')
    requires !Given(OptionsOf(sig).argAlias)
    requires TypeInfoOf(d, ctor, KeyOf(OptionsOf(sig).key), false).Success?
    requires TypeInfoOf(d, ctor, KeyOf(OptionsOf(sig).key), false).value.name !in g.names
    ensures r.Success?
    ensures var info := TypeInfoOf(d, ctor, KeyOf(OptionsOf(sig).key), false).value;
            regs' == regs[info.name := NewRegistration(info.name, OptionsOf(sig), TypeSource(info))]
  {
    var info := TypeInfoOf(d, ctor, KeyOf(OptionsOf(sig).key), false).value;
    AddFreshKeepsAcyclic(g, info.name, Types(info.args));
    assert EdgesEffect(info.name, Types(info.args), g, r, g');
  }

  /**
   * A type registration that gets past the type information is stored,
   * whatever fails after it (unless the arg alias is that very name).
   */
  lemma TypeStoredOnFailure(d: Dialect, ctor: Value, sig: Signature, g: Digraph, regs: map<string, Registration>,
                            r: Result<()>, g': Digraph, regs': map<string, Registration>)
    requires sig.JsSignature? ==> WellTypedArgs(sig.positional)
    requires WellFormed(g)
    requires TypeRegistered(d, ctor, sig, g, regs, r, g', regs')
    requires TypeInfoOf(d, ctor, KeyOf(OptionsOf(sig).key), false).Success?
    ensures var o := OptionsOf(sig);
            var info := TypeInfoOf(d, ctor, KeyOf(o.key), false).value;
            && info.name in regs'
            && (regs'[info.name] == NewRegistration(info.name, o, TypeSource(info))
                || (Given(o.argAlias) && info.name == ArgPrefix + o.argAlias.value))
  {
  }

  /**
   * src/container.js with no key option and a falsy instance that is not a
   * string: the instance is stored under its string form, and then an arg
   * alias is refused because the key is not a string.
   */
  lemma FalsyInstanceArgAlias(instance: Value, sig: Signature, g: Digraph, regs: map<string, Registration>,
                              r: Result<()>, g': Digraph, regs': map<string, Registration>)
    requires sig.JsSignature? ==> WellTypedArgs(sig.positional)
    requires WellFormed(g)
    requires InstanceRegistered(JavaScript, instance, sig, g, regs, r, g', regs')
    requires !Given(OptionsOf(sig).key) && !Truthy(instance) && !instance.Str?
    requires Given(OptionsOf(sig).argAlias)
    ensures r == Failure(Error(KeyNotStringMessage)) && g' == g
    ensures ToJsString(instance) in regs' && regs'[ToJsString(instance)].source == InstanceSource(instance)
  {
  }

  // ---------------------------------------------------------------------
  // The imperative engine

  /** The mutable world: the heap of objects, the lifetime cells and the call log. */
  class Realm {
    var objects: map<nat, map<string, Value>>
    var cells: map<nat, Value>
    var next: nat
    var log: seq<Call>

    function State(): World
      reads this
    {
      World(objects, cells, next, log)
    }

    constructor ()
      ensures State() == World(map[], map[], 0, [])
    {
      objects := map[];
      cells := map[];
      next := 0;
      log := [];
    }

    /** A fresh object with the given constructor name and own properties. */
    method AllocateObject(ctorName: string, props: map<string, Value>) returns (o: Value)
      modifies this
      ensures (o, State()) == Allocate(old(State()), ctorName, props)
    {
      o := Obj(next, Some(ctorName));
      objects := objects[next := props];
      next := next + 1;
    }

    /** `new MemoryLifetime()`: a new cell holding `null`. */
    method NewMemoryLifetime() returns (l: Lifetime)
      modifies this
      ensures l == Memory(old(next)) && Fetch(l, cells) == Null
      ensures State() == old(State()).(cells := old(cells)[old(next) := Null], next := old(next) + 1)
    {
      l := Memory(next);
      cells := cells[next := Null];
      next := next + 1;
    }

    /** `new ctor(...args)`. */
    method New(f: Function, args: seq<Value>) returns (r: Result<Value>)
      modifies this
      ensures Outcome(r, State()) == ConstructF(f, args, old(State()))
    {
      log := log + [Construct(f, args)];
      match f.behaviour
      case Throws(t) =>
        r := Failure(Thrown(t));
      case ReturnsNew(name) =>
        var o := AllocateObject(name, map[]);
        r := Success(o);
      case Returns(v) =>
        if v.Obj? || v.Fn? {
          r := Success(v);
        } else {
          var o := AllocateObject(f.name, f.prototype);
          r := Success(o);
        }
    }

    /** `fn(...args)`. */
    method CallFunction(f: Function, args: seq<Value>) returns (r: Result<Value>)
      modifies this
      ensures Outcome(r, State()) == CallF(f, args, old(State()))
    {
      log := log + [Invoke(f, args)];
      match f.behaviour
      case Throws(t) =>
        r := Failure(Thrown(t));
      case ReturnsNew(name) =>
        var o := AllocateObject(name, map[]);
        r := Success(o);
      case Returns(v) =>
        r := Success(v);
    }

    /** `fn.call(receiver, ...args)`. */
    method CallAsMethod(f: Function, receiver: Value, args: seq<Value>) returns (r: Result<()>)
      modifies this
      ensures Outcome(r, State()) == CallMethodF(f, receiver, args, old(State()))
    {
      log := log + [InvokeMethod(f, receiver, args)];
      if f.behaviour.Throws? {
        r := Failure(Thrown(f.behaviour.thrown));
      } else {
        r := Success(());
      }
    }

    /** `target[p] = v`. */
    method SetProperty(target: Value, p: string, v: Value) returns (r: Result<()>)
      modifies this
      ensures Outcome(r, State()) == SetPropertyF(target, p, v, old(State()))
    {
      match target
      case Obj(ref, _) =>
        objects := objects[ref := PropsOf(State(), ref)[p := v]];
        r := Success(());
      case Fn(_) =>
        r := Success(());
      case _ =>
        r := SetPropertyF(target, p, v, State()).result;
    }
  }

  /** A resolution context: the registrations being resolved, outermost first. */
  class Context {
    var history: seq<string>

    constructor (history: seq<string>)
      ensures this.history == history
    {
      this.history := history;
    }
  }

  /** The outcome of a step that failed part-way or went through, as a list of results so far. */
  function Prepend(values: seq<Value>, rest: Outcome<seq<Value>>): Outcome<seq<Value>>
  {
    if rest.result.Failure? then rest else Outcome(Success(values + rest.result.value), rest.world)
  }

  class Container {
    const dialect: Dialect
    const realm: Realm
    /** The container itself, as the value factories receive and `"Container"` resolves to. */
    const self: Value
    const parent: Container?
    var registrations: map<string, Registration>
    var graph: Graph

    ghost predicate Valid()
      reads this, graph
    {
      graph.Valid() && NamedByKey(registrations)
    }

    function Current(): Env
      reads this
    {
      Env(dialect, registrations, self)
    }

    /** `isRegistered(key)`. */
    function IsRegistered(key: Value): bool
      requires key.Str? || key.Fn?
      reads this
    {
      KeyName(key) in registrations
    }

    /**
     * `new Container(parent)`: no registrations but the container itself,
     * registered as an instance under its class name, and an empty graph.
     */
    constructor (dialect: Dialect, realm: Realm, className: string, parent: Container?)
      modifies realm
      ensures this.dialect == dialect && this.realm == realm && this.parent == parent
      ensures (self, realm.State()) == Allocate(old(realm.State()), className, map[])
      ensures registrations == map[className := Registration(className, Transient, [], InstanceSource(self))]
      ensures Valid() && fresh(graph) && graph.names == []
    {
      var o := realm.AllocateObject(className, map[]);
      this.dialect := dialect;
      this.realm := realm;
      this.self := o;
      this.parent := parent;
      registrations := map[className := Registration(className, Transient, [], InstanceSource(o))];
      graph := new Graph();
    }

    // ----------------------------------------------------------- resolution

    /** `resolveSync(key, context)`, with the context's history pushed and popped around producing. */
    method ResolveWith(key: string, context: Context, fuel: nat) returns (r: Result<Value>)
      modifies realm, context
      ensures Outcome(r, realm.State()) == Resolve(Current(), key, old(context.history), old(realm.State()), fuel)
      ensures r.Success? ==> context.history == old(context.history)
      decreases fuel, 0
    {
      if fuel == 0 {
        return Failure(CallStackExceeded);
      }
      if key !in registrations {
        return Failure(Error(UnregisteredMessage(key, context.history)));
      }
      var reg := registrations[key];
      var existing := Fetch(reg.lifetime, realm.cells);
      if Truthy(existing) {
        return Success(existing);
      }
      context.history := context.history + [reg.name];
      var made := ProduceWith(reg.source, context, fuel - 1);
      if made.Failure? {
        return made;
      }
      context.history := context.history[..|context.history| - 1];
      var injected := InjectWith(made.value, key, fuel - 1);
      if injected.Failure? {
        return Failure(injected.error);
      }
      realm.cells := Store(reg.lifetime, realm.cells, made.value);
      r := made;
    }

    /** The `instanceof` dispatch of `resolveSync` on a cache miss. */
    method ProduceWith(source: Source, context: Context, fuel: nat) returns (r: Result<Value>)
      modifies realm, context
      ensures Outcome(r, realm.State()) == Produce(Current(), source, old(context.history), old(realm.State()), fuel)
      ensures r.Success? ==> context.history == old(context.history)
      decreases fuel, 3
    {
      match source
      case InstanceSource(v) =>
        r := Success(v);
      case TypeSource(ti) =>
        r := NewInstanceWith(ti, context, fuel);
      case FactorySource(f) =>
        r := realm.CallFunction(f, [self]);
      case DelegateSource(k) =>
        r := ResolveWith(k, context, fuel);
    }

    /** `builder.newInstanceSync(typeInfo, context)`. */
    method NewInstanceWith(ti: TypeInfo, context: Context, fuel: nat) returns (r: Result<Value>)
      modifies realm, context
      ensures Outcome(r, realm.State()) == NewInstance(Current(), ti, old(context.history), old(realm.State()), fuel)
      ensures r.Success? ==> context.history == old(context.history)
      decreases fuel, 2
    {
      var params := new Argument[|ti.args|](i requires 0 <= i < |ti.args| => ti.args[i]);
      assert params[..] == ti.args;
      GetParams(params);
      var args := ResolveEachWith(Types(params[..]), context, fuel);
      if args.Failure? {
        return Failure(args.error);
      }
      if dialect == TypeScript && !ti.constructable {
        r := Failure(Error(NotConstructableMessage(ti.name)));
      } else if !ti.ctor.newable {
        r := Failure(NotAConstructor);
      } else {
        r := realm.New(ti.ctor, args.value);
      }
    }

    /** `keys.map(key => resolveSync(key, context))`. */
    method ResolveEachWith(keys: seq<string>, context: Context, fuel: nat) returns (r: Result<seq<Value>>)
      modifies realm, context
      ensures Outcome(r, realm.State()) == ResolveEach(Current(), keys, old(context.history), old(realm.State()), fuel)
      ensures r.Success? ==> context.history == old(context.history)
      decreases fuel, 1
    {
      ghost var history := context.history;
      ghost var w := realm.State();
      var values := [];
      assert keys[0..] == keys;
      assert forall vs: seq<Value> :: [] + vs == vs;
      for i := 0 to |keys|
        invariant context.history == history
        invariant ResolveEach(Current(), keys, history, w, fuel) == Prepend(values, ResolveEach(Current(), keys[i..], history, realm.State(), fuel))
      {
        ghost var before := realm.State();
        var v := ResolveWith(keys[i], context, fuel);
        assert keys[i..][1..] == keys[i + 1..];
        if v.Failure? {
          return Failure(v.error);
        }
        ghost var rest := ResolveEach(Current(), keys[i + 1..], history, realm.State(), fuel);
        assert rest.result.Success? ==> values + ([v.value] + rest.result.value) == (values + [v.value]) + rest.result.value;
        values := values + [v.value];
      }
      assert keys[|keys|..] == [] && values + [] == values;
      r := Success(values);
    }

    /** `injectSync(instance, key)`: the registration's injections, one after another. */
    method InjectWith(instance: Value, key: string, fuel: nat) returns (r: Result<()>)
      modifies realm
      ensures Outcome(r, realm.State()) == InjectInto(Current(), instance, key, old(realm.State()), fuel)
      decreases fuel, 4
    {
      var k := InjectionKey(dialect, instance, key);
      if k.Failure? {
        return Failure(k.error);
      }
      var name := ToJsString(k.value);
      if name !in registrations {
        return Failure(UnregisteredKeyError(k.value));
      }
      var injections := registrations[name].injections;
      ghost var w := realm.State();
      for i := 0 to |injections|
        invariant InjectAll(Current(), injections, instance, w, fuel) == InjectAll(Current(), injections[i..], instance, realm.State(), fuel)
      {
        var one := InjectOneWith(injections[i], instance, fuel);
        assert injections[i..][1..] == injections[i + 1..];
        if one.Failure? {
          return one;
        }
      }
      r := Success(());
    }

    /** `injection.injectSync(instance, container)`. */
    method InjectOneWith(injection: Injection, instance: Value, fuel: nat) returns (r: Result<()>)
      modifies realm
      ensures Outcome(r, realm.State()) == InjectOne(Current(), injection, instance, old(realm.State()), fuel)
      decreases fuel, 2
    {
      match injection
      case BaseInjection =>
        r := Failure(Error("Not implemented"));
      case PropertyValueInjection(p, v) =>
        r := realm.SetProperty(instance, p, v);
      case PropertyInjection(p, valueKey) =>
        var context := new Context(InjectionHistory(dialect, instance, p));
        var v := ResolveWith(valueKey, context, fuel);
        if v.Failure? {
          return Failure(v.error);
        }
        r := realm.SetProperty(instance, p, v.value);
      case MethodInjection(m, explicitArgs) =>
        var found := GetPropertyF(instance, m, realm.State());
        if found.Failure? {
          return Failure(found.error);
        }
        if !found.value.Fn? {
          return Failure(Error(MethodMissingMessage(m)));
        }
        if explicitArgs.Some? {
          r := realm.CallAsMethod(found.value.f, instance, explicitArgs.value);
          return;
        }
        var info;
        if dialect == TypeScript {
          info := GetTypeInfo(TypeScript, found.value, "$__", true);
        } else {
          info := GetTypeInfo(JavaScript, found.value, m, false);
        }
        if info.Failure? {
          return Failure(info.error);
        }
        var context := new Context(InjectionHistory(dialect, instance, m + "()"));
        var args := ResolveEachWith(Types(info.value.args), context, fuel);
        if args.Failure? {
          return Failure(args.error);
        }
        r := realm.CallAsMethod(found.value.f, instance, args.value);
    }

    /** `resolveSync(key)`: a constructor key stands for its name; the history starts empty. */
    method ResolveSync(key: Value, fuel: nat) returns (r: Result<Value>)
      requires key.Str? || key.Fn?
      modifies realm
      ensures Outcome(r, realm.State()) == Resolve(Current(), KeyName(key), [], old(realm.State()), fuel)
    {
      var context := new Context([]);
      r := ResolveWith(KeyName(key), context, fuel);
    }

    /** `tryResolveSync(key)`: `undefined` instead of an error; what the failed attempt did stays done. */
    method TryResolveSync(key: Value, fuel: nat) returns (v: Value)
      requires key.Str? || key.Fn?
      modifies realm
      ensures var o := Resolve(Current(), KeyName(key), [], old(realm.State()), fuel);
              realm.State() == o.world && v == (if o.result.Success? then o.result.value else Undefined)
    {
      var r := ResolveSync(key, fuel);
      v := if r.Success? then r.value else Undefined;
    }

    // --------------------------------------------------------- registration

    /**
     * `registerAlias(key, alias)`: both must be strings; the alias depends on
     * the key in the graph, and the delegate is stored only when that edge
     * closes no cycle (the edge itself stays either way).
     */
    method RegisterAlias(key: Value, alias: Value) returns (r: Result<()>)
      requires Valid()
      modifies this, graph
      ensures Valid() && graph == old(graph)
      ensures key.Str? && !alias.Str? ==> r == Failure(Error(AliasNotStringMessage)) && unchanged(this, graph)
      ensures alias.Str? ==> AliasEffect(key, alias.s, old(graph.Value()), old(registrations), r, graph.Value(), registrations)
      ensures !key.Str? ==> r == Failure(Error(KeyNotStringMessage)) && unchanged(this, graph)
    {
      if !key.Str? {
        return Failure(Error(KeyNotStringMessage));
      }
      if !alias.Str? {
        return Failure(Error(AliasNotStringMessage));
      }
      var verdict, comps := graph.AddAndVerify(alias.s, List([key.s]));
      if verdict.Cyclic? {
        return Failure(Error(verdict.message));
      }
      registrations := WithDelegate(registrations, key.s, alias.s);
      r := Success(());
    }

    /** `registerArgAlias(key, alias)`: an alias under the implicit key of a parameter named `alias`. */
    method RegisterArgAlias(key: Value, alias: string) returns (r: Result<()>)
      requires Valid()
      modifies this, graph
      ensures Valid() && graph == old(graph)
      ensures AliasEffect(key, ArgPrefix + alias, old(graph.Value()), old(registrations), r, graph.Value(), registrations)
    {
      r := RegisterAlias(key, Str(ArgPrefix + alias));
    }

    /** The `if (options.argAlias) registerArgAlias(key, options.argAlias)` step of the `register*` methods. */
    method MaybeArgAlias(key: Value, o: Options) returns (r: Result<()>)
      requires Valid()
      modifies this, graph
      ensures Valid() && graph == old(graph)
      ensures ArgAliasEffect(key, o, old(graph.Value()), old(registrations), r, graph.Value(), registrations)
    {
      if Given(o.argAlias) {
        r := RegisterArgAlias(key, o.argAlias.value);
      } else {
        r := Success(());
      }
    }

    /** `registerType(ctor, ...)`; a cycle is reported after the registration is stored, and it stays. */
    method RegisterType(ctor: Value, sig: Signature) returns (r: Result<()>)
      requires Valid() && Fits(dialect, sig)
      modifies this, graph
      ensures Valid() && graph == old(graph)
      ensures TypeRegistered(dialect, ctor, sig, old(graph.Value()), old(registrations), r, graph.Value(), registrations)
    {
      var o := OptionsOf(sig);
      var info := GetTypeInfo(dialect, ctor, KeyOf(o.key), false);
      if info.Failure? {
        return Failure(info.error);
      }
      var key := info.value.name;
      registrations := registrations[key := NewRegistration(key, o, TypeSource(info.value))];
      var aliased := MaybeArgAlias(Str(key), o);
      if aliased.Failure? {
        return aliased;
      }
      var verdict, comps := graph.AddAndVerify(key, List(Types(info.value.args)));
      if verdict.Cyclic? {
        return Failure(CycleError(key, verdict.message));
      }
      r := Success(());
    }

    /** `registerTypeAndArgAlias(ctor, key, alias)`. */
    method RegisterTypeAndArgAlias(ctor: Value, key: Value, alias: Value) returns (r: Result<()>)
      requires Valid()
      requires key.Str? || key.Null? || key.Undefined?
      requires alias.Str? || alias.Null? || alias.Undefined?
      modifies this, graph
      ensures Valid() && graph == old(graph)
      ensures TypeRegistered(dialect, ctor, AndArgAliasSignature(dialect, key, alias),
                             old(graph.Value()), old(registrations), r, graph.Value(), registrations)
    {
      r := RegisterType(ctor, AndArgAliasSignature(dialect, key, alias));
    }

    /**
     * `registerInstance(instance, ...)`: stored under the key option or the
     * key taken from the instance, then the arg alias.
     */
    method RegisterInstance(instance: Value, sig: Signature) returns (r: Result<()>)
      requires Valid() && Fits(dialect, sig)
      modifies this, graph
      ensures Valid() && graph == old(graph)
      ensures InstanceRegistered(dialect, instance, sig, old(graph.Value()), old(registrations), r, graph.Value(), registrations)
    {
      var o := OptionsOf(sig);
      var key := InstanceKey(dialect, o, instance);
      if key.Failure? {
        return Failure(key.error);
      }
      var name := ToJsString(key.value);
      registrations := registrations[name := NewRegistration(name, o, InstanceSource(instance))];
      r := MaybeArgAlias(key.value, o);
    }

    /** `registerInstanceAndArgAlias(instance, key, alias)`. */
    method RegisterInstanceAndArgAlias(instance: Value, key: Value, alias: Value) returns (r: Result<()>)
      requires Valid()
      requires key.Str? || key.Null? || key.Undefined?
      requires alias.Str? || alias.Null? || alias.Undefined?
      modifies this, graph
      ensures Valid() && graph == old(graph)
      ensures InstanceRegistered(dialect, instance, AndArgAliasSignature(dialect, key, alias),
                                 old(graph.Value()), old(registrations), r, graph.Value(), registrations)
    {
      r := RegisterInstance(instance, AndArgAliasSignature(dialect, key, alias));
    }

    /** `registerFactory(factory, ...)`: a truthy key option is required. */
    method RegisterFactory(factory: Function, sig: Signature) returns (r: Result<()>)
      requires Valid() && Fits(dialect, sig)
      modifies this, graph
      ensures Valid() && graph == old(graph)
      ensures FactoryRegistered(factory, sig, old(graph.Value()), old(registrations), r, graph.Value(), registrations)
    {
      var o := OptionsOf(sig);
      if !Given(o.key) {
        return Failure(Error(FactoryKeyMessage));
      }
      registrations := registrations[o.key.value := NewRegistration(o.key.value, o, FactorySource(factory))];
      r := MaybeArgAlias(Str(o.key.value), o);
    }

    /** `registerFactoryAndArgAlias(factory, key, alias)`: `{ key, argAlias: alias }`, with no swapping. */
    method RegisterFactoryAndArgAlias(factory: Function, key: string, alias: string) returns (r: Result<()>)
      requires Valid()
      modifies this, graph
      ensures Valid() && graph == old(graph)
      ensures FactoryRegistered(factory, AndArgAliasSignature(dialect, Str(key), Str(alias)),
                                old(graph.Value()), old(registrations), r, graph.Value(), registrations)
      ensures key == "" ==> r == Failure(Error(FactoryKeyMessage))
    {
      r := RegisterFactory(factory, AndArgAliasSignature(dialect, Str(key), Str(alias)));
    }

    /**
     * `createChildContainer()`: a new container in the same realm with every
     * registration of this one, except that the class-name key now resolves
     * to the child, and a clone of the graph.
     */
    method CreateChildContainer(className: string) returns (child: Container)
      requires Valid() && className != ""
      modifies realm
      ensures fresh(child) && child.Valid()
      ensures child.parent == this && child.realm == realm && child.dialect == dialect
      ensures child.registrations == registrations[className := Registration(className, Transient, [], InstanceSource(child.self))]
      ensures fresh(child.graph) && child.graph.Value() == CloneOf(graph.Value(), |graph.names|)
      ensures forall x :: x in child.graph.names <==> x in graph.names
      ensures forall x :: x in graph.names ==>
                SuccessorNames(child.graph.Value(), x) == Reverse(SuccessorNames(graph.Value(), x))
    {
      child := NewChild(className);
      var copy := graph.Clone();
      child.graph := copy;
    }

    /**
     * The first steps of `createChildContainer()`: a new container with every
     * registration of this one, then itself registered as an instance under
     * the class name.
     */
    method NewChild(className: string) returns (child: Container)
      requires Valid() && className != ""
      modifies realm
      ensures fresh(child) && child.Valid()
      ensures child.parent == this && child.realm == realm && child.dialect == dialect
      ensures child.registrations == registrations[className := Registration(className, Transient, [], InstanceSource(child.self))]
    {
      child := new Container(dialect, realm, className, this);
      child.registrations := registrations;
      var own := child.RegisterInstance(child.self, if dialect == TypeScript then TsSignature(NoArgs) else JsSignature([]));
    }

    /** `injectSync(instance, key)`, called directly. */
    method InjectSync(instance: Value, key: string, fuel: nat) returns (r: Result<()>)
      modifies realm
      ensures Outcome(r, realm.State()) == InjectInto(Current(), instance, key, old(realm.State()), fuel)
    {
      r := InjectWith(instance, key, fuel);
    }
  }
}
