/**
 * The call interceptor of src/interception/interception.js and its older
 * form src/interception.js.
 *
 * An intercepted call runs a list of handlers, each given the call's
 * `context` and a `next` continuation.  Handlers are opaque user functions;
 * each is modelled as data: what it does to the context before calling
 * `next`, whether it calls `next` at all, what it does to the context once
 * `next` has returned, and (in asynchronous mode) the callback it passes to
 * `next`.  The wrapped method is likewise opaque and modelled by what it
 * yields for the arguments it receives.
 */
module Interception {
  import opened Js

  /** The `context` object every handler receives. */
  datatype Ctx = Ctx(
    instance: Value,
    methodName: string,
    arguments: seq<Value>,
    error: Value,
    returnValue: Value)

  /** One call handler, as what it does. */
  datatype Handler = Handler(
    before: Ctx -> Ctx,            // its code up to its call of `next`
    callsNext: bool,               // whether it calls `next`
    after: Ctx -> Ctx,             // its code after `next` has returned
    callback: Option<Ctx -> Ctx>)  // asynchronous mode: the callback it hands to `next`

  /** What a synchronous call of the wrapped method does. */
  datatype Completion = Returned(value: Value) | Threw(thrown: Value)

  /** The arguments an asynchronous wrapped method passes to its completion callback. */
  datatype AsyncCompletion = AsyncCompletion(err: Value, result: Value, extra: seq<Value>)

  /**
   * Which interceptor: src/interception/interception.js, or the older
   * src/interception.js, whose asynchronous path consults the wrapped
   * method's declared arity.
   */
  datatype Variant = Current | Legacy

  /**
   * A synchronous interception: the final context and the argument lists the
   * wrapped method was called with.
   */
  datatype SyncRun = SyncRun(context: Ctx, calls: seq<seq<Value>>)

  /**
   * An asynchronous interception: the final context, the argument lists the
   * wrapped method was called with (its completion callback not shown), and
   * what the caller's callback received, if it was called.
   */
  datatype AsyncRun = AsyncRun(context: Ctx, calls: seq<seq<Value>>, delivered: Option<seq<Value>>)

  /** The context a call starts with: no error, no return value, the call's arguments. */
  function InitialContext(instance: Value, methodName: string, args: seq<Value>): Ctx
  {
    Ctx(instance, methodName, args, Null, Undefined)
  }

  // ---------------------------------------------------------------------
  // The synchronous chain

  /** The innermost `next`: the wrapped method, unless an error is already set. */
  function Invoke(ctx: Ctx, thunk: seq<Value> -> Completion): SyncRun
  {
    if Truthy(ctx.error) then SyncRun(ctx, [])
    else match thunk(ctx.arguments)
      case Returned(v) => SyncRun(ctx.(returnValue := v), [ctx.arguments])
      case Threw(e) => SyncRun(ctx.(error := e), [ctx.arguments])
  }

  /**
   * `next(0)()`: the first handler runs its code, then (if it calls `next`)
   * the rest of the chain, then its remaining code.  The wrapped method is
   * called at most once, whatever the handlers do.
   */
  function RunSync(hs: seq<Handler>, ctx: Ctx, thunk: seq<Value> -> Completion): (r: SyncRun)
    ensures |r.calls| <= 1
    decreases |hs|
  {
    if hs == [] then Invoke(ctx, thunk)
    else
      var c := hs[0].before(ctx);
      var inner := if hs[0].callsNext then RunSync(hs[1..], c, thunk) else SyncRun(c, []);
      SyncRun(hs[0].after(inner.context), inner.calls)
  }

  /** After the chain: a truthy error is thrown, otherwise the return value is returned. */
  function SyncResult(ctx: Ctx): (r: Result<Value>)
    ensures r.Failure? <==> Truthy(ctx.error)
    ensures r.Failure? ==> r.error == Thrown(ctx.error)
    ensures r.Success? ==> r.value == ctx.returnValue
  {
    if Truthy(ctx.error) then Failure(Thrown(ctx.error)) else Success(ctx.returnValue)
  }

  /** `handleCallSync`: the call's result and the wrapped method's calls. */
  function HandleCallSyncSpec(hs: seq<Handler>, instance: Value, methodName: string, args: seq<Value>,
                              thunk: seq<Value> -> Completion): (Result<Value>, seq<seq<Value>>)
  {
    var run := RunSync(hs, InitialContext(instance, methodName, args), thunk);
    (SyncResult(run.context), run.calls)
  }

  /** Every handler calls `next`. */
  predicate AllCallNext(hs: seq<Handler>)
  {
    forall i :: 0 <= i < |hs| ==> hs[i].callsNext
  }

  /** The context after each handler's code before `next`, in list order. */
  function Descend(hs: seq<Handler>, ctx: Ctx): Ctx
    decreases |hs|
  {
    if hs == [] then ctx else Descend(hs[1..], hs[0].before(ctx))
  }

  /** The context after each handler's code after `next`, last handler first. */
  function Unwind(hs: seq<Handler>, ctx: Ctx): Ctx
    decreases |hs|
  {
    if hs == [] then ctx else hs[0].after(Unwind(hs[1..], ctx))
  }

  /**
   * The wrapped method is called exactly when every handler calls `next` and
   * the context then holds no error, and it receives the context's arguments
   * at that point.
   */
  lemma {:induction false} MethodCalled(hs: seq<Handler>, ctx: Ctx, thunk: seq<Value> -> Completion)
    ensures RunSync(hs, ctx, thunk).calls ==
            if AllCallNext(hs) && !Truthy(Descend(hs, ctx).error) then [Descend(hs, ctx).arguments] else []
    decreases |hs|
  {
    if hs != [] {
      if hs[0].callsNext {
        MethodCalled(hs[1..], hs[0].before(ctx), thunk);
        assert AllCallNext(hs) <==> AllCallNext(hs[1..]) by {
          if AllCallNext(hs[1..]) {
            forall i | 0 <= i < |hs| ensures hs[i].callsNext {
              if i > 0 { assert hs[i] == hs[1..][i - 1]; }
            }
          }
        }
      } else {
        assert !AllCallNext(hs);
      }
    }
  }

  /**
   * Onion order: when the outer handlers all call `next`, their code before
   * `next` runs first, in list order, then the inner handlers, then their
   * code after `next`, in reverse order.
   */
  lemma {:induction false} Onion(outer: seq<Handler>, inner: seq<Handler>, ctx: Ctx, thunk: seq<Value> -> Completion)
    requires AllCallNext(outer)
    ensures RunSync(outer + inner, ctx, thunk) ==
            var run := RunSync(inner, Descend(outer, ctx), thunk);
            SyncRun(Unwind(outer, run.context), run.calls)
    decreases |outer|
  {
    if outer == [] {
      assert outer + inner == inner;
    } else {
      var hs := outer + inner;
      assert hs[0] == outer[0] && hs[1..] == outer[1..] + inner;
      assert AllCallNext(outer[1..]) by {
        forall i | 0 <= i < |outer[1..]| ensures outer[1..][i].callsNext {
          assert outer[1..][i] == outer[i + 1];
        }
      }
      Onion(outer[1..], inner, outer[0].before(ctx), thunk);
    }
  }

  /**
   * A handler that does not call `next` ends the chain: nothing after it
   * runs, whatever follows, and the wrapped method is not called.
   */
  lemma {:induction false} ChainStops(hs: seq<Handler>, rest: seq<Handler>, ctx: Ctx, thunk: seq<Value> -> Completion)
    requires !AllCallNext(hs)
    ensures RunSync(hs + rest, ctx, thunk) == RunSync(hs, ctx, thunk)
    ensures RunSync(hs, ctx, thunk).calls == []
    decreases |hs|
  {
    var all := hs + rest;
    assert all[0] == hs[0] && all[1..] == hs[1..] + rest;
    if hs[0].callsNext {
      assert !AllCallNext(hs[1..]) by {
        var i :| 0 <= i < |hs| && !hs[i].callsNext;
        assert hs[1..][i - 1] == hs[i];
      }
      ChainStops(hs[1..], rest, hs[0].before(ctx), thunk);
    }
  }

  /** With no handlers the call is the plain call, except that a falsy thrown value is swallowed. */
  lemma NoHandlers(instance: Value, methodName: string, args: seq<Value>, thunk: seq<Value> -> Completion)
    ensures HandleCallSyncSpec([], instance, methodName, args, thunk) ==
            match thunk(args)
            case Returned(v) => (Success(v), [args])
            case Threw(e) => (if Truthy(e) then Failure(Thrown(e)) else Success(Undefined), [args])
  {
  }

  /**
   * A handler that clears the error after `next` turns a throwing method
   * into a call returning `undefined` (tests/interception-tests.js:103-125).
   */
  lemma HandlerClearsError(instance: Value, methodName: string, args: seq<Value>, thrown: Value)
    requires Truthy(thrown)
    ensures var h := Handler(c => c, true, (c: Ctx) => c.(error := Null), None);
            HandleCallSyncSpec([h], instance, methodName, args, _ => Threw(thrown)) == (Success(Undefined), [args])
  {
  }

  // ---------------------------------------------------------------------
  // The asynchronous chain

  /** The completion callback the interceptor appends to the wrapped method's arguments. */
  const CompletionFunction: Value :=
    Fn(Function("", "function(err, result) {}", 2, Headers(None, None, None, None), map[], Returns(Undefined), true))

  /**
   * The caller's callback, if the arguments end with a function: the current
   * interceptor always looks, the older one only when there are at least as
   * many arguments as the wrapped method declares parameters.
   */
  function SplitCallback(v: Variant, arity: nat, args: seq<Value>): (r: (Option<Value>, seq<Value>))
    ensures r.0.Some? <==>
            |args| > 0 && TypeOf(args[|args| - 1]) == "function" && (v.Legacy? ==> |args| >= arity)
    ensures r.0.Some? ==> args == r.1 + [r.0.value]
    ensures r.0.None? ==> r.1 == args
  {
    if |args| > 0 && TypeOf(args[|args| - 1]) == "function" && (v.Current? || |args| >= arity)
    then (Some(args[|args| - 1]), args[..|args| - 1])
    else (None, args)
  }

  /** The completion sets the error and the return value only with truthy values. */
  function Complete(ctx: Ctx, c: AsyncCompletion): (r: Ctx)
    ensures r.error == (if Truthy(c.err) then c.err else ctx.error)
    ensures r.returnValue == (if Truthy(c.result) then c.result else ctx.returnValue)
    ensures r.arguments == ctx.arguments && r.instance == ctx.instance && r.methodName == ctx.methodName
  {
    var c1 := if Truthy(c.err) then ctx.(error := c.err) else ctx;
    if Truthy(c.result) then c1.(returnValue := c.result) else c1
  }

  function ApplyCallback(cb: Option<Ctx -> Ctx>, ctx: Ctx): Ctx
  {
    if cb.Some? then cb.value(ctx) else ctx
  }

  /** The handlers' callbacks, run in list order. */
  function RunCallbacks(cbs: seq<Option<Ctx -> Ctx>>, ctx: Ctx): Ctx
    decreases |cbs|
  {
    if cbs == [] then ctx else RunCallbacks(cbs[1..], ApplyCallback(cbs[0], ctx))
  }

  /** What the caller's callback receives: the error, the return value and the extra results. */
  function Delivery(user: Option<Value>, ctx: Ctx, extra: seq<Value>): Option<seq<Value>>
  {
    if user.Some? then Some([ctx.error, ctx.returnValue] + extra) else None
  }

  /**
   * The callbacks once the call is over.  The current interceptor runs every
   * handler's callback, outermost first, then reports to the caller.  The
   * older one runs the innermost handler's callback, takes what it reports,
   * runs the other callbacks outermost first, and only then reports.
   */
  function Deliver(v: Variant, ctx: Ctx, extra: seq<Value>, cbs: seq<Option<Ctx -> Ctx>>,
                   user: Option<Value>, calls: seq<seq<Value>>): AsyncRun
  {
    if v == Current then
      var c := RunCallbacks(cbs, ctx);
      AsyncRun(c, calls, Delivery(user, c, extra))
    else if cbs == [] then AsyncRun(ctx, calls, Delivery(user, ctx, extra))
    else
      var c := ApplyCallback(cbs[|cbs| - 1], ctx);
      AsyncRun(RunCallbacks(cbs[..|cbs| - 1], c), calls, Delivery(user, c, extra))
  }

  /**
   * The innermost `next` of `handleCall`: the caller's callback is taken off
   * the arguments; with an error already set the method is skipped and the
   * callbacks run at once; otherwise the completion callback is appended and
   * the method called, and its completion (if it ever completes) runs the
   * callbacks.
   */
  function AsyncTerminal(v: Variant, arity: nat, ctx: Ctx, thunk: seq<Value> -> Option<AsyncCompletion>,
                         cbs: seq<Option<Ctx -> Ctx>>): AsyncRun
  {
    var (user, args) := SplitCallback(v, arity, ctx.arguments);
    var c := ctx.(arguments := args);
    if Truthy(c.error) then Deliver(v, c, [], cbs, user, [])
    else
      var c' := c.(arguments := args + [CompletionFunction]);
      match thunk(args)
      case None => AsyncRun(c', [args], None)
      case Some(done) => Deliver(v, Complete(c', done), done.extra, cbs, user, [args])
  }

  /**
   * `handleCall` from handler `hs[0]` on, `cbs` being the callbacks the
   * handlers before it passed to `next`.  The wrapped method is taken to
   * complete before it returns, so the handlers' code after `next` runs last.
   */
  function RunAsync(v: Variant, arity: nat, hs: seq<Handler>, ctx: Ctx, thunk: seq<Value> -> Option<AsyncCompletion>,
                    cbs: seq<Option<Ctx -> Ctx>>): (r: AsyncRun)
    ensures |r.calls| <= 1
    decreases |hs|
  {
    if hs == [] then AsyncTerminal(v, arity, ctx, thunk, cbs)
    else
      var c := hs[0].before(ctx);
      if !hs[0].callsNext then AsyncRun(hs[0].after(c), [], None)
      else
        var inner := RunAsync(v, arity, hs[1..], c, thunk, cbs + [hs[0].callback]);
        inner.(context := hs[0].after(inner.context))
  }

  /** `handleCall(instance, methodName, args, thunk)`. */
  function HandleCallSpec(v: Variant, arity: nat, hs: seq<Handler>, instance: Value, methodName: string,
                          args: seq<Value>, thunk: seq<Value> -> Option<AsyncCompletion>): AsyncRun
  {
    RunAsync(v, arity, hs, InitialContext(instance, methodName, args), thunk, [])
  }

  /** The callbacks the handlers pass to `next`, in list order. */
  function Callbacks(hs: seq<Handler>): (r: seq<Option<Ctx -> Ctx>>)
    ensures |r| == |hs| && forall i :: 0 <= i < |hs| ==> r[i] == hs[i].callback
  {
    seq(|hs|, i requires 0 <= i < |hs| => hs[i].callback)
  }

  /**
   * When every handler calls `next`, the asynchronous chain reaches the
   * terminal step with the context their code before `next` produced and
   * with all their callbacks, in list order; their code after `next` runs
   * last, innermost first.
   */
  lemma {:induction false} AsyncOnion(v: Variant, arity: nat, hs: seq<Handler>, ctx: Ctx,
                                      thunk: seq<Value> -> Option<AsyncCompletion>, cbs: seq<Option<Ctx -> Ctx>>)
    requires AllCallNext(hs)
    ensures RunAsync(v, arity, hs, ctx, thunk, cbs) ==
            var r := AsyncTerminal(v, arity, Descend(hs, ctx), thunk, cbs + Callbacks(hs));
            r.(context := Unwind(hs, r.context))
    decreases |hs|
  {
    if hs == [] {
      assert cbs + Callbacks(hs) == cbs;
    } else {
      assert AllCallNext(hs[1..]) by {
        forall i | 0 <= i < |hs[1..]| ensures hs[1..][i].callsNext {
          assert hs[1..][i] == hs[i + 1];
        }
      }
      AsyncOnion(v, arity, hs[1..], hs[0].before(ctx), thunk, cbs + [hs[0].callback]);
      assert cbs + [hs[0].callback] + Callbacks(hs[1..]) == cbs + Callbacks(hs);
    }
  }

  /** A handler that does not call `next` ends the asynchronous chain: no method call, no report. */
  lemma {:induction false} AsyncChainStops(v: Variant, arity: nat, hs: seq<Handler>, ctx: Ctx,
                                           thunk: seq<Value> -> Option<AsyncCompletion>, cbs: seq<Option<Ctx -> Ctx>>)
    requires !AllCallNext(hs)
    ensures RunAsync(v, arity, hs, ctx, thunk, cbs).calls == []
    ensures RunAsync(v, arity, hs, ctx, thunk, cbs).delivered == None
    decreases |hs|
  {
    if hs[0].callsNext {
      assert !AllCallNext(hs[1..]) by {
        var i :| 0 <= i < |hs| && !hs[i].callsNext;
        assert hs[1..][i - 1] == hs[i];
      }
      AsyncChainStops(v, arity, hs[1..], hs[0].before(ctx), thunk, cbs + [hs[0].callback]);
    }
  }

  /**
   * An error already set when the terminal step is reached: the method is
   * not called, yet every callback runs and the caller hears of the error.
   */
  lemma PresetErrorSkipsMethod(v: Variant, arity: nat, ctx: Ctx, thunk: seq<Value> -> Option<AsyncCompletion>,
                               cbs: seq<Option<Ctx -> Ctx>>)
    requires Truthy(ctx.error)
    ensures var r := AsyncTerminal(v, arity, ctx, thunk, cbs);
            var (user, args) := SplitCallback(v, arity, ctx.arguments);
            r.calls == [] &&
            (v == Current ==> r.context == RunCallbacks(cbs, ctx.(arguments := args))) &&
            (user.Some? <==> r.delivered.Some?)
  {
  }

  /**
   * The method receives the arguments without the caller's callback, and the
   * context's arguments then end with the completion callback.
   */
  lemma MethodGetsArguments(v: Variant, arity: nat, ctx: Ctx, thunk: seq<Value> -> Option<AsyncCompletion>,
                            cbs: seq<Option<Ctx -> Ctx>>)
    requires !Truthy(ctx.error)
    requires thunk(SplitCallback(v, arity, ctx.arguments).1).None?
    ensures var args := SplitCallback(v, arity, ctx.arguments).1;
            AsyncTerminal(v, arity, ctx, thunk, cbs) ==
            AsyncRun(ctx.(arguments := args + [CompletionFunction]), [args], None)
  {
  }

  /**
   * With no callbacks in the way, the caller's callback receives the
   * completion's error and result where they are truthy, the context's
   * earlier values where they are not, then the completion's extra values.
   */
  lemma CallerSeesTruthyResults(v: Variant, arity: nat, ctx: Ctx, user: Value, done: AsyncCompletion,
                                thunk: seq<Value> -> Option<AsyncCompletion>)
    requires !Truthy(ctx.error)
    requires SplitCallback(v, arity, ctx.arguments) == (Some(user), SplitCallback(v, arity, ctx.arguments).1)
    requires thunk(SplitCallback(v, arity, ctx.arguments).1) == Some(done)
    ensures AsyncTerminal(v, arity, ctx, thunk, []).delivered ==
            Some([if Truthy(done.err) then done.err else ctx.error,
                  if Truthy(done.result) then done.result else ctx.returnValue] + done.extra)
  {
  }

  /**
   * The older interceptor only takes a trailing function as the caller's
   * callback when the call supplies at least the declared number of
   * arguments; otherwise the method receives it among its arguments and the
   * interceptor reports to nobody (tests/interception-tests.js:486-529).
   */
  lemma LegacyTooFewArguments(arity: nat, ctx: Ctx, thunk: seq<Value> -> Option<AsyncCompletion>,
                              cbs: seq<Option<Ctx -> Ctx>>)
    requires |ctx.arguments| < arity && !Truthy(ctx.error)
    ensures AsyncTerminal(Legacy, arity, ctx, thunk, cbs).calls == [ctx.arguments]
    ensures AsyncTerminal(Legacy, arity, ctx, thunk, cbs).delivered == None
  {
  }

  /**
   * The two interceptors differ in when the caller's report is taken: with
   * two handlers, an error the outer handler's callback sets reaches the
   * caller in the current interceptor but not in the older one, where only
   * the innermost callback runs before the report.
   */
  lemma OuterCallbackEdits(arity: nat, ctx: Ctx, user: Value, done: AsyncCompletion, e: Value,
                           thunk: seq<Value> -> Option<AsyncCompletion>)
    requires Truthy(e) && !Truthy(ctx.error) && !Truthy(done.err)
    requires SplitCallback(Current, arity, ctx.arguments) == SplitCallback(Legacy, arity, ctx.arguments)
    requires SplitCallback(Current, arity, ctx.arguments).0 == Some(user)
    requires thunk(SplitCallback(Current, arity, ctx.arguments).1) == Some(done)
    ensures var cbs := [Some((c: Ctx) => c.(error := e)), None];
            AsyncTerminal(Current, arity, ctx, thunk, cbs).delivered.value[0] == e &&
            AsyncTerminal(Legacy, arity, ctx, thunk, cbs).delivered.value[0] == ctx.error
  {
    var cbs := [Some((c: Ctx) => c.(error := e)), None];
    assert cbs[..1] == [Some((c: Ctx) => c.(error := e))];
  }

  // ---------------------------------------------------------------------
  // The mutable call context and the interceptor

  /** The `context` object, whose fields handlers and the interceptor overwrite. */
  class CallContext {
    var instance: Value
    var methodName: string
    var arguments: seq<Value>
    var error: Value
    var returnValue: Value

    function State(): Ctx
      reads this
    {
      Ctx(instance, methodName, arguments, error, returnValue)
    }

    constructor (instance: Value, methodName: string, args: seq<Value>)
      ensures State() == InitialContext(instance, methodName, args)
    {
      this.instance := instance;
      this.methodName := methodName;
      this.arguments := args;
      this.error := Null;
      this.returnValue := Undefined;
    }

    /** A handler's code runs on the context. */
    method Apply(f: Ctx -> Ctx)
      modifies this
      ensures State() == f(old(State()))
    {
      var c := f(State());
      instance, methodName, arguments, error, returnValue := c.instance, c.methodName, c.arguments, c.error, c.returnValue;
    }
  }

  class Interceptor {
    const handlers: seq<Handler>
    const variant: Variant

    constructor (handlers: seq<Handler>, variant: Variant)
      ensures this.handlers == handlers && this.variant == variant
    {
      this.handlers := handlers;
      this.variant := variant;
    }

    /** `next(index)()`: handler `index`, or the wrapped method past the last handler. */
    method Next(index: nat, context: CallContext, thunk: seq<Value> -> Completion) returns (calls: seq<seq<Value>>)
      requires index <= |handlers|
      modifies context
      ensures SyncRun(context.State(), calls) == RunSync(handlers[index..], old(context.State()), thunk)
      decreases |handlers| - index
    {
      if index == |handlers| {
        calls := [];
        if !Truthy(context.error) {
          match thunk(context.arguments)
          case Returned(v) =>
            calls := [context.arguments];
            context.returnValue := v;
          case Threw(e) =>
            calls := [context.arguments];
            context.error := e;
        }
      } else {
        var h := handlers[index];
        assert handlers[index..][0] == h && handlers[index..][1..] == handlers[index + 1..];
        context.Apply(h.before);
        calls := [];
        if h.callsNext {
          calls := Next(index + 1, context, thunk);
        }
        context.Apply(h.after);
      }
    }

    /** `handleCallSync`: the value returned or the exception thrown, and the wrapped method's calls. */
    method HandleCallSync(instance: Value, methodName: string, args: seq<Value>, thunk: seq<Value> -> Completion)
      returns (r: Result<Value>, calls: seq<seq<Value>>)
      ensures (r, calls) == HandleCallSyncSpec(handlers, instance, methodName, args, thunk)
    {
      var context := new CallContext(instance, methodName, args);
      calls := Next(0, context, thunk);
      if Truthy(context.error) {
        r := Failure(Thrown(context.error));
      } else {
        r := Success(context.returnValue);
      }
    }

    /** The handlers' callbacks, one after another. */
    method RunCallbacksOn(cbs: seq<Option<Ctx -> Ctx>>, context: CallContext)
      modifies context
      ensures context.State() == RunCallbacks(cbs, old(context.State()))
    {
      for i := 0 to |cbs|
        invariant RunCallbacks(cbs, old(context.State())) == RunCallbacks(cbs[i..], context.State())
      {
        assert cbs[i..][0] == cbs[i] && cbs[i..][1..] == cbs[i + 1..];
        if cbs[i].Some? {
          context.Apply(cbs[i].value);
        }
      }
    }

    /** Running the callbacks and reporting to the caller's callback. */
    method DeliverOn(context: CallContext, extra: seq<Value>, cbs: seq<Option<Ctx -> Ctx>>,
                     user: Option<Value>, calls: seq<seq<Value>>) returns (delivered: Option<seq<Value>>)
      modifies context
      ensures AsyncRun(context.State(), calls, delivered) == Deliver(variant, old(context.State()), extra, cbs, user, calls)
    {
      if variant == Current {
        RunCallbacksOn(cbs, context);
        delivered := Delivery(user, context.State(), extra);
      } else if cbs == [] {
        delivered := Delivery(user, context.State(), extra);
      } else {
        if cbs[|cbs| - 1].Some? {
          context.Apply(cbs[|cbs| - 1].value);
        }
        delivered := Delivery(user, context.State(), extra);
        RunCallbacksOn(cbs[..|cbs| - 1], context);
      }
    }

    /** The innermost `next` of `handleCall`: pop the caller's callback, push the completion. */
    method TerminalAsync(arity: nat, context: CallContext, thunk: seq<Value> -> Option<AsyncCompletion>,
                         cbs: seq<Option<Ctx -> Ctx>>) returns (calls: seq<seq<Value>>, delivered: Option<seq<Value>>)
      modifies context
      ensures AsyncRun(context.State(), calls, delivered) == AsyncTerminal(variant, arity, old(context.State()), thunk, cbs)
    {
      var user: Option<Value> := None;
      var n := |context.arguments|;
      if n > 0 && TypeOf(context.arguments[n - 1]) == "function" && (variant == Current || n >= arity) {
        user := Some(context.arguments[n - 1]);
        context.arguments := context.arguments[..n - 1];
      }
      if Truthy(context.error) {
        calls := [];
        delivered := DeliverOn(context, [], cbs, user, calls);
      } else {
        var args := context.arguments;
        context.arguments := context.arguments + [CompletionFunction];
        calls := [args];
        match thunk(args)
        case None =>
          delivered := None;
        case Some(done) =>
          if Truthy(done.err) {
            context.error := done.err;
          }
          if Truthy(done.result) {
            context.returnValue := done.result;
          }
          delivered := DeliverOn(context, done.extra, cbs, user, calls);
      }
    }

    /** `next(index)(callback)` of `handleCall`, `cbs` being the callbacks passed so far. */
    method NextAsync(index: nat, arity: nat, context: CallContext, thunk: seq<Value> -> Option<AsyncCompletion>,
                     cbs: seq<Option<Ctx -> Ctx>>) returns (calls: seq<seq<Value>>, delivered: Option<seq<Value>>)
      requires index <= |handlers|
      modifies context
      ensures AsyncRun(context.State(), calls, delivered) ==
              RunAsync(variant, arity, handlers[index..], old(context.State()), thunk, cbs)
      decreases |handlers| - index
    {
      if index == |handlers| {
        calls, delivered := TerminalAsync(arity, context, thunk, cbs);
      } else {
        var h := handlers[index];
        assert handlers[index..][0] == h && handlers[index..][1..] == handlers[index + 1..];
        context.Apply(h.before);
        calls, delivered := [], None;
        if h.callsNext {
          calls, delivered := NextAsync(index + 1, arity, context, thunk, cbs + [h.callback]);
        }
        context.Apply(h.after);
      }
    }

    /**
     * `handleCall`: the wrapped method's calls and what the caller's callback
     * received; `arity` is the wrapped method's declared parameter count.
     */
    method HandleCall(instance: Value, methodName: string, args: seq<Value>, arity: nat,
                      thunk: seq<Value> -> Option<AsyncCompletion>)
      returns (calls: seq<seq<Value>>, delivered: Option<seq<Value>>)
      ensures calls == HandleCallSpec(variant, arity, handlers, instance, methodName, args, thunk).calls
      ensures delivered == HandleCallSpec(variant, arity, handlers, instance, methodName, args, thunk).delivered
    {
      var context := new CallContext(instance, methodName, args);
      calls, delivered := NextAsync(0, arity, context, thunk, []);
    }
  }
}
