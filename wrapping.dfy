/**
 * Wrapping a freshly built object's methods in interceptors: the loop of
 * `invokeCtor` in src/interception/object-builder.js and its older copy in
 * src/builder.js, and the configuration calls of
 * src/interception/container.js that produce the handler configurations it
 * reads.
 */
module MethodWrapping {
  import opened Js
  import opened Interception

  /** A handler configuration: its handlers, its matcher and its mode. */
  datatype HandlerConfig = HandlerConfig(handlers: seq<Handler>, matcher: (Value, string) -> bool, isAsync: bool)

  /**
   * What an own property holds: a plain value, or a delegate installed by
   * interception that, when called with some arguments, runs
   * `handleCall` (asynchronous mode) or `handleCallSync` (synchronous mode)
   * of an interceptor over `handlers`, around the function previously held.
   */
  datatype Slot =
    | Data(value: Value)
    | Delegate(handlers: seq<Handler>, isAsync: bool, thunk: Slot)

  /** An own property: what it holds and its `writable` and `configurable` attributes. */
  datatype Property = Property(slot: Slot, writable: bool, configurable: bool)

  /** `typeof` of what a slot holds is `function`. */
  predicate IsFunction(s: Slot)
  {
    s.Delegate? || TypeOf(s.value) == "function"
  }

  // ---------------------------------------------------------------------
  // Selecting the configurations for one method

  /** The mode of the first configuration whose matcher accepts the method, if any does. */
  function Mode(configs: seq<HandlerConfig>, self: Value, key: string): Option<bool>
    decreases |configs|
  {
    if configs == [] then None
    else if configs[0].matcher(self, key) then Some(configs[0].isAsync)
    else Mode(configs[1..], self, key)
  }

  /** The configurations that accept the method and have the given mode, in order. */
  function Filter(configs: seq<HandlerConfig>, self: Value, key: string, mode: bool): seq<HandlerConfig>
    decreases |configs|
  {
    if configs == [] then []
    else
      var n := |configs| - 1;
      var c := configs[n];
      Filter(configs[..n], self, key, mode) + if c.matcher(self, key) && c.isAsync == mode then [c] else []
  }

  /** The configurations' handler lists, one after another. */
  function Concat(configs: seq<HandlerConfig>): seq<Handler>
    decreases |configs|
  {
    if configs == [] then [] else Concat(configs[..|configs| - 1]) + configs[|configs| - 1].handlers
  }

  /** The mode is that of the first accepting configuration; there is none when none accepts. */
  lemma {:induction false} ModeFirst(configs: seq<HandlerConfig>, self: Value, key: string)
    ensures Mode(configs, self, key).None? <==> forall j :: 0 <= j < |configs| ==> !configs[j].matcher(self, key)
    ensures forall i :: 0 <= i < |configs| && configs[i].matcher(self, key) &&
                        (forall j :: 0 <= j < i ==> !configs[j].matcher(self, key)) ==>
                        Mode(configs, self, key) == Some(configs[i].isAsync)
    decreases |configs|
  {
    if configs != [] {
      ModeFirst(configs[1..], self, key);
      forall j | 1 <= j < |configs| ensures configs[j] == configs[1..][j - 1] { }
    }
  }

  /** Looking at one more configuration only matters while no mode is fixed. */
  lemma {:induction false} ModeExtend(configs: seq<HandlerConfig>, c: HandlerConfig, self: Value, key: string)
    ensures Mode(configs + [c], self, key) ==
            if Mode(configs, self, key).Some? then Mode(configs, self, key)
            else if c.matcher(self, key) then Some(c.isAsync) else None
    decreases |configs|
  {
    if configs == [] {
      assert [c][1..] == [];
    } else {
      assert (configs + [c])[1..] == configs[1..] + [c];
      ModeExtend(configs[1..], c, self, key);
    }
  }

  /** No configuration accepts: nothing is selected, whatever the mode. */
  lemma {:induction false} FilterNone(configs: seq<HandlerConfig>, self: Value, key: string, mode: bool)
    requires forall j :: 0 <= j < |configs| ==> !configs[j].matcher(self, key)
    ensures Filter(configs, self, key, mode) == []
    decreases |configs|
  {
    if configs != [] {
      FilterNone(configs[..|configs| - 1], self, key, mode);
    }
  }

  /** Selection keeps configuration order: it distributes over concatenation. */
  lemma {:induction false} FilterAppend(a: seq<HandlerConfig>, b: seq<HandlerConfig>, self: Value, key: string, mode: bool)
    ensures Filter(a + b, self, key, mode) == Filter(a, self, key, mode) + Filter(b, self, key, mode)
    decreases |b|
  {
    if b == [] {
      assert a + b == a;
    } else {
      var n := |b| - 1;
      assert (a + b)[..|a + b| - 1] == a + b[..n];
      FilterAppend(a, b[..n], self, key, mode);
    }
  }

  /** A single configuration is selected exactly when it accepts the method and has the mode. */
  lemma FilterOne(c: HandlerConfig, self: Value, key: string, mode: bool)
    ensures |Filter([c], self, key, mode)| == (if c.matcher(self, key) && c.isAsync == mode then 1 else 0)
  {
    assert [c][..0] == [];
  }

  /** Concatenating handler lists keeps configuration order. */
  lemma {:induction false} ConcatAppend(a: seq<HandlerConfig>, b: seq<HandlerConfig>)
    ensures Concat(a + b) == Concat(a) + Concat(b)
    decreases |b|
  {
    if b == [] {
      assert a + b == a;
    } else {
      var n := |b| - 1;
      assert (a + b)[..|a + b| - 1] == a + b[..n];
      ConcatAppend(a, b[..n]);
    }
  }

  /** Once a mode is fixed, at least the configuration that fixed it is selected. */
  lemma {:induction false} ModeSelectsSome(configs: seq<HandlerConfig>, self: Value, key: string)
    requires Mode(configs, self, key).Some?
    ensures |Filter(configs, self, key, Mode(configs, self, key).value)| > 0
    decreases |configs|
  {
    var m := Mode(configs, self, key).value;
    var rest := configs[1..];
    assert configs == [configs[0]] + rest;
    FilterAppend([configs[0]], rest, self, key, m);
    FilterOne(configs[0], self, key, m);
    if !configs[0].matcher(self, key) {
      ModeSelectsSome(rest, self, key);
    }
  }

  /**
   * The `filter` callback with its mode lock: the first accepting
   * configuration fixes the mode, and only accepting configurations of that
   * mode are kept.
   */
  method SelectConfigs(configs: seq<HandlerConfig>, self: Value, key: string)
    returns (selected: seq<HandlerConfig>, mode: Option<bool>)
    ensures mode == Mode(configs, self, key)
    ensures mode.Some? ==> selected == Filter(configs, self, key, mode.value)
    ensures mode.None? ==> selected == []
  {
    selected, mode := [], None;
    for i := 0 to |configs|
      invariant mode == Mode(configs[..i], self, key)
      invariant mode.Some? ==> selected == Filter(configs[..i], self, key, mode.value)
      invariant mode.None? ==> selected == []
    {
      var c := configs[i];
      assert configs[..i + 1] == configs[..i] + [c];
      ModeExtend(configs[..i], c, self, key);
      var isMatch := c.matcher(self, key);
      if isMatch && mode.None? {
        ModeFirst(configs[..i], self, key);
        FilterNone(configs[..i], self, key, c.isAsync);
        mode := Some(c.isAsync);
      }
      if isMatch && mode == Some(c.isAsync) {
        selected := selected + [c];
      }
    }
    assert configs[..|configs|] == configs;
  }

  /** `forEach` pushing each selected configuration's handlers. */
  method CollectHandlers(selected: seq<HandlerConfig>) returns (handlers: seq<Handler>)
    ensures handlers == Concat(selected)
  {
    handlers := [];
    for i := 0 to |selected|
      invariant handlers == Concat(selected[..i])
    {
      assert selected[..i + 1][..i] == selected[..i];
      handlers := handlers + selected[i].handlers;
    }
    assert selected[..|selected|] == selected;
  }

  // ---------------------------------------------------------------------
  // Wrapping the methods of one object

  /**
   * What `instance[key]` reads: the own property, else the inherited
   * enumerable member, else `undefined`.
   */
  function Current(own: map<string, Property>, inherited: map<string, Value>, key: string): Slot
  {
    if key in own then own[key].slot else Data(if key in inherited then inherited[key] else Undefined)
  }

  /**
   * The property `key` ends up with, or `None` when it is left alone: a
   * non-configurable own property, a value that is not a function and a
   * method no configuration accepts are skipped; otherwise the method is
   * redefined as a non-writable delegate around the selected handlers, in
   * the mode of the first accepting configuration.  An inherited method
   * becomes an own, non-configurable property.
   */
  function Intercepted(own: map<string, Property>, inherited: map<string, Value>, self: Value, key: string,
                       configs: seq<HandlerConfig>): (r: Option<Property>)
    ensures r.Some? ==> !r.value.writable && r.value.slot.Delegate? && r.value.slot.thunk == Current(own, inherited, key)
    ensures r.Some? ==> IsFunction(Current(own, inherited, key)) && Mode(configs, self, key).Some?
    ensures r.Some? ==> key !in own || own[key].configurable
  {
    var thunk := Current(own, inherited, key);
    if key in own && !own[key].configurable then None
    else if !IsFunction(thunk) then None
    else match Mode(configs, self, key)
      case None => None
      case Some(mode) => Some(Property(Delegate(Concat(Filter(configs, self, key, mode)), mode, thunk), false, key in own))
  }

  /** `own` with every listed key that `decide` gives a property for overwritten by that property. */
  function Overwrite(own: map<string, Property>, keys: seq<string>, decide: string -> Option<Property>): map<string, Property>
  {
    map k | k in own.Keys + (set k | k in keys && decide(k).Some?) ::
      if k in keys && decide(k).Some? then decide(k).value else own[k]
  }

  /** Overwriting for one more key changes the map at that key alone. */
  lemma OverwriteStep(own: map<string, Property>, keys: seq<string>, i: nat, decide: string -> Option<Property>)
    requires i < |keys|
    ensures Overwrite(own, keys[..i + 1], decide) ==
            if decide(keys[i]).Some? then Overwrite(own, keys[..i], decide)[keys[i] := decide(keys[i]).value]
            else Overwrite(own, keys[..i], decide)
  {
    assert keys[..i + 1] == keys[..i] + [keys[i]];
  }

  /** A key that is not listed keeps its property, or its absence. */
  lemma OverwriteUntouched(own: map<string, Property>, keys: seq<string>, decide: string -> Option<Property>, key: string)
    requires key !in keys
    ensures key in Overwrite(own, keys, decide) <==> key in own
    ensures key in own ==> Overwrite(own, keys, decide)[key] == own[key]
  {
  }

  /** What wrapping decides for each key, judged on the properties as they were before. */
  function Decision(own: map<string, Property>, inherited: map<string, Value>, self: Value,
                    configs: seq<HandlerConfig>): string -> Option<Property>
  {
    k => Intercepted(own, inherited, self, k, configs)
  }

  /** The own properties after wrapping every enumerated key. */
  function InterceptAll(own: map<string, Property>, inherited: map<string, Value>, self: Value, keys: seq<string>,
                        configs: seq<HandlerConfig>): map<string, Property>
  {
    Overwrite(own, keys, Decision(own, inherited, self, configs))
  }

  /** With no configurations, nothing is wrapped. */
  lemma NoConfigsUntouched(own: map<string, Property>, inherited: map<string, Value>, self: Value, keys: seq<string>)
    ensures InterceptAll(own, inherited, self, keys, []) == own
  {
  }

  /**
   * Each enumerated method is wrapped in a delegate around exactly the
   * handlers of the accepting configurations of the first accepting
   * configuration's mode, concatenated in configuration order; every other
   * property is left as it was.
   */
  lemma WrappedMethods(own: map<string, Property>, inherited: map<string, Value>, self: Value, keys: seq<string>,
                       configs: seq<HandlerConfig>, key: string)
    ensures var after := InterceptAll(own, inherited, self, keys, configs);
            var mode := Mode(configs, self, key);
            if key in keys && (key !in own || own[key].configurable) && IsFunction(Current(own, inherited, key)) &&
               mode.Some?
            then key in after && after[key] ==
                 Property(Delegate(Concat(Filter(configs, self, key, mode.value)), mode.value, Current(own, inherited, key)),
                          false, key in own)
            else (key in after <==> key in own) && (key in own ==> after[key] == own[key])
  {
    var decide := Decision(own, inherited, self, configs);
    assert decide(key) == Intercepted(own, inherited, self, key, configs);
  }

  /** The object `invokeCtor` returns: its own properties change, the rest does not. */
  class Instance {
    const self: Value
    const inherited: map<string, Value>
    var own: map<string, Property>

    constructor (self: Value, own: map<string, Property>, inherited: map<string, Value>)
      ensures this.self == self && this.own == own && this.inherited == inherited
    {
      this.self := self;
      this.own := own;
      this.inherited := inherited;
    }
  }

  /** No key occurs twice in an enumeration. */
  predicate Distinct(keys: seq<string>)
  {
    forall i, j :: 0 <= i < j < |keys| ==> keys[i] != keys[j]
  }

  /**
   * The interception part of `invokeCtor`: `keys` are the keys the
   * enumeration yields (`for…in` in src/interception/object-builder.js,
   * `Object.keys` in src/builder.js), each once.
   */
  method WrapMethods(instance: Instance, keys: seq<string>, configs: seq<HandlerConfig>)
    requires Distinct(keys)
    modifies instance
    ensures instance.own == InterceptAll(old(instance.own), instance.inherited, instance.self, keys, configs)
  {
    ghost var own0 := instance.own;
    if |configs| == 0 {
      NoConfigsUntouched(own0, instance.inherited, instance.self, keys);
      return;
    }
    for i := 0 to |keys|
      invariant instance.own == Overwrite(own0, keys[..i], Decision(own0, instance.inherited, instance.self, configs))
    {
      ghost var before := instance.own;
      WrapOne(instance, keys[i], configs);
      WrapStep(own0, instance.inherited, instance.self, configs, keys, i, before, instance.own);
    }
    assert keys[..|keys|] == keys;
  }

  /** One more key wrapped: the key is not among those before it, so its property is still the original one. */
  lemma WrapStep(own0: map<string, Property>, inherited: map<string, Value>, self: Value, configs: seq<HandlerConfig>,
                 keys: seq<string>, i: nat, before: map<string, Property>, after: map<string, Property>)
    requires Distinct(keys) && i < |keys|
    requires before == Overwrite(own0, keys[..i], Decision(own0, inherited, self, configs))
    requires var r := Intercepted(before, inherited, self, keys[i], configs);
             after == if r.Some? then before[keys[i] := r.value] else before
    ensures after == Overwrite(own0, keys[..i + 1], Decision(own0, inherited, self, configs))
  {
    var key := keys[i];
    assert key !in keys[..i];
    OverwriteUntouched(own0, keys[..i], Decision(own0, inherited, self, configs), key);
    InterceptedLocal(before, own0, inherited, self, key, configs);
    OverwriteStep(own0, keys, i, Decision(own0, inherited, self, configs));
  }

  /** The decision for a key depends on that key's own property alone. */
  lemma InterceptedLocal(own1: map<string, Property>, own2: map<string, Property>, inherited: map<string, Value>,
                         self: Value, key: string, configs: seq<HandlerConfig>)
    requires key in own1 <==> key in own2
    requires key in own1 ==> own1[key] == own2[key]
    ensures Intercepted(own1, inherited, self, key, configs) == Intercepted(own2, inherited, self, key, configs)
  {
  }

  /** One iteration of the loop: the checks, the selection, and `Object.defineProperty`. */
  method WrapOne(instance: Instance, key: string, configs: seq<HandlerConfig>)
    modifies instance
    ensures var r := Intercepted(old(instance.own), instance.inherited, instance.self, key, configs);
            instance.own == if r.Some? then old(instance.own)[key := r.value] else old(instance.own)
  {
    var thunk := Current(instance.own, instance.inherited, key);
    if key in instance.own && !instance.own[key].configurable {
      return;
    }
    if !IsFunction(thunk) {
      return;
    }
    var selected, mode := SelectConfigs(configs, instance.self, key);
    if mode.Some? {
      ModeSelectsSome(configs, instance.self, key);
    }
    if |selected| == 0 {
      return;
    }
    var handlers := CollectHandlers(selected);
    instance.own := instance.own[key := Property(Delegate(handlers, mode.value, thunk), false, key in instance.own)];
  }

  // ---------------------------------------------------------------------
  // Configuring interception (src/interception/container.js)

  /** The matcher argument of `intercept`: a value, an array, or a predicate function. */
  datatype MatcherArg =
    | Given(v: Value)
    | List(items: seq<Value>)
    | Predicate(p: (Value, string) -> bool)

  function Item(items: seq<Value>, i: nat): Value
  {
    if i < |items| then items[i] else Undefined
  }

  /** Whether a function value, called as a matcher, answers truthily. */
  predicate Answers(f: Function)
  {
    match f.behaviour
    case Returns(v) => Truthy(v)
    case ReturnsNew(_) => true
    case Throws(_) => false
  }

  /**
   * The matcher turned into a predicate on (instance, method name):
   * `instanceOf(x, C)` stands for `x instanceof C`.
   */
  function Normalize(m: MatcherArg, instanceOf: (Value, Value) -> bool): (Value, string) -> bool
  {
    match m
    case Predicate(p) => p
    case List(items) =>
      (instance: Value, name: string) =>
        instanceOf(instance, Item(items, 0)) && (!Truthy(Item(items, 1)) || Item(items, 1) == Str(name))
    case Given(v) =>
      if v.Str? then (instance: Value, name: string) => name == v.s
      else if v.Fn? then (instance: Value, name: string) => Answers(v.f)
      else (instance: Value, name: string) => Truthy(v)
  }

  /**
   * A string accepts the method of that name; an array `[C, name]` accepts
   * instances of `C`, and only the method `name` unless `name` is falsy; a
   * predicate is used as it is; any other value accepts all or nothing by
   * its truthiness.
   */
  lemma MatcherMeaning(m: MatcherArg, instanceOf: (Value, Value) -> bool, instance: Value, name: string)
    ensures m.Given? && m.v.Str? ==> (Normalize(m, instanceOf)(instance, name) <==> name == m.v.s)
    ensures m.List? && |m.items| >= 2 ==>
            (Normalize(m, instanceOf)(instance, name) <==>
             instanceOf(instance, m.items[0]) && (!Truthy(m.items[1]) || m.items[1] == Str(name)))
    ensures m.List? && |m.items| == 1 ==>
            (Normalize(m, instanceOf)(instance, name) <==> instanceOf(instance, m.items[0]))
    ensures m.Predicate? ==> (Normalize(m, instanceOf)(instance, name) <==> m.p(instance, name))
    ensures m.Given? && !m.v.Str? && !m.v.Fn? ==> (Normalize(m, instanceOf)(instance, name) <==> Truthy(m.v))
  {
    if m.List? && |m.items| >= 1 {
      assert Item(m.items, 0) == m.items[0];
      assert Item(m.items, 1) == if |m.items| >= 2 then m.items[1] else Undefined;
    }
  }

  /** A configuration as `intercept` creates it; `sync()`/`async()` set its mode. */
  class ConfigObject {
    const handlers: seq<Handler>
    const matcher: (Value, string) -> bool
    var isAsync: bool

    constructor (handlers: seq<Handler>, matcher: (Value, string) -> bool)
      ensures this.handlers == handlers && this.matcher == matcher && !isAsync
    {
      this.handlers := handlers;
      this.matcher := matcher;
      this.isAsync := false;
    }
  }

  /** The configurations of an intercepting container, as the object builder reads them. */
  function Snapshot(configs: seq<ConfigObject>): (r: seq<HandlerConfig>)
    reads set c | c in configs
    ensures |r| == |configs|
  {
    seq(|configs|, i reads set c | c in configs requires 0 <= i < |configs| =>
      HandlerConfig(configs[i].handlers, configs[i].matcher, configs[i].isAsync))
  }

  /** The interception configuration of `InterceptableContainer`. */
  class InterceptableContainer {
    var handlerConfigs: seq<ConfigObject>

    constructor ()
      ensures handlerConfigs == []
    {
      handlerConfigs := [];
    }

    /** `intercept(matcher, ...handlers)`: a configuration, not yet added. */
    method Intercept(matcher: MatcherArg, instanceOf: (Value, Value) -> bool, handlers: seq<Handler>)
      returns (config: ConfigObject)
      ensures fresh(config) && config.handlers == handlers && config.matcher == Normalize(matcher, instanceOf)
    {
      config := new ConfigObject(handlers, Normalize(matcher, instanceOf));
    }

    /**
     * `.sync()`: the configuration is marked synchronous and appended.  The
     * same object is appended again by a later `.sync()` or `.async()`, and
     * every entry then shows the latest mode.
     */
    method Sync(config: ConfigObject) returns (self: InterceptableContainer)
      modifies this, config
      ensures self == this && !config.isAsync && handlerConfigs == old(handlerConfigs) + [config]
    {
      config.isAsync := false;
      handlerConfigs := handlerConfigs + [config];
      self := this;
    }

    /** `.async()`: the configuration is marked asynchronous and appended. */
    method Async(config: ConfigObject) returns (self: InterceptableContainer)
      modifies this, config
      ensures self == this && config.isAsync && handlerConfigs == old(handlerConfigs) + [config]
    {
      config.isAsync := true;
      handlerConfigs := handlerConfigs + [config];
      self := this;
    }
  }
}
