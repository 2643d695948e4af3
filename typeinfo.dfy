/**
 * Type information for a constructor: the resolution key it registers
 * under, whether it can be constructed with `new`, and its parameters, each
 * with the key it resolves to (src/util.ts and src/util.js, `getTypeInfo`).
 *
 * The header of the function's source text (`function Foo(...) {`,
 * `class Foo { constructor(...) {`, `(...) =>`, ...) is matched by the
 * JavaScript regular-expression engine against the whole source; the
 * outcome of that match is carried by the `Function` value (`Js.Headers`).
 * Everything after it is modelled here: the constructor check, key
 * selection, the constructable flag, comma splitting and the recognition of
 * `/** T */ name` doc-comment parameters.
 */
module Signatures {
  import opened Js
  import opened DocComments

  /** `argPrefix`: the key prefix of parameters resolved by name. */
  const ArgPrefix := "$arg:"

  /** Which of the two implementations, src/util.ts or src/util.js, is followed. */
  datatype Dialect = TypeScript | JavaScript

  datatype ParsedAs = Arg | DocComment

  /** One constructor parameter: its position in the split signature, its key and its name. */
  datatype Argument = Argument(position: nat, argType: string, name: string, parsedAs: ParsedAs)

  datatype TypeInfo = TypeInfo(args: seq<Argument>, ctor: Function, name: string, constructable: bool)

  const KeyRequiredMessage := "A resolution key must be given if a named function is not"

  /** The message V8 gives when reading `.name` of `undefined`. */
  const NoConstructorMessage := "Cannot read properties of undefined (reading 'name')"

  function UnparsableMessage(f: Function): string
  {
    "Unable to parse function definition: " + f.source + ". If " +
    "this is a valid constructor, please open an issue with the developers."
  }

  // ---------------------------------------------------------------------
  // verifyCtorType

  /**
   * How the error message describes a non-function value.
   *
   * src/util.ts: an object reports `instance of` its constructor's name
   * (an object without a constructor makes the lookup itself throw), a
   * falsy value reports `null`, anything else its `typeof`.
   * src/util.js: any truthy value with a constructor, boxed primitives
   * included, reports `instance of` that constructor's name.
   */
  function Describe(d: Dialect, v: Value): (r: Result<string>)
    requires !v.Fn?
    ensures !Truthy(v) ==> r == Success("null")
    ensures d == TypeScript && v.Obj? ==>
              r == if v.ctorName.Some? then Success("instance of " + v.ctorName.value)
                   else Failure(TypeError(NoConstructorMessage))
    ensures d == TypeScript && Truthy(v) && !v.Obj? ==> r == Success(TypeOf(v))
    ensures d == JavaScript && Truthy(v) ==>
              r == if ConstructorName(v).Some? then Success("instance of " + ConstructorName(v).value)
                   else Success("object")
  {
    match d
    case TypeScript =>
      if TypeOf(v) == "object" && Truthy(v) then
        if v.ctorName.Some? then Success("instance of " + v.ctorName.value)
        else Failure(TypeError(NoConstructorMessage))
      else if !Truthy(v) then Success("null")
      else Success(TypeOf(v))
    case JavaScript =>
      if Truthy(v) && ConstructorName(v).Some? then Success("instance of " + ConstructorName(v).value)
      else if !Truthy(v) then Success("null")
      else Success(TypeOf(v))
  }

  /** `verifyCtorType`: a function passes; anything else is rejected with its description. */
  function VerifyCtorType(d: Dialect, v: Value): (r: Result<Function>)
    ensures r.Success? <==> v.Fn?
    ensures v.Fn? ==> r.value == v.f
    ensures !v.Fn? && Describe(d, v).Success? ==>
              r == Failure(Error("Constructor must be a function, got " + Describe(d, v).value))
  {
    if v.Fn? then Success(v.f)
    else match Describe(d, v)
      case Success(m) => Failure(Error("Constructor must be a function, got " + m))
      case Failure(e) => Failure(e)
  }

  // ---------------------------------------------------------------------
  // Key selection and the constructable flag

  /**
   * The capture groups `data[1]` and `data[2]` as the patterns of src/util.ts
   * and src/util.js produce them (a group that did not participate as "").
   * The anonymous-function pattern of src/util.ts has a single group, so its
   * parameter text lands in `data[1]` and `data[2]` is undefined.
   */
  function GroupsAsWritten(d: Dialect, h: Header): (string, string)
  {
    if d == TypeScript && h.kind == AnonymousFunction then (h.params, "") else (h.name, h.params)
  }

  /** The capture groups with the name group first and the parameter text second, for every pattern. */
  function Groups(h: Header): (string, string)
  {
    (h.name, h.params)
  }

  /** src/util.ts falls back to `ctor.name` for these kinds; src/util.js never does. */
  predicate FallsBackToCtorName(d: Dialect, kind: HeaderKind)
  {
    d == TypeScript && kind in {NamedFunction, ClassWithCtor, ClassWithoutCtor}
  }

  /**
   * `key || data[1] || ctor.name`: the resolution key of a constructor.  An
   * empty choice, or the word `function` (what the JavaScript method pattern
   * captures for `function(`), is rejected.
   */
  function TypeName(d: Dialect, key: string, captured: string, kind: HeaderKind, ctorName: string): (r: Result<string>)
    ensures r.Failure? <==> r == Failure(Error(KeyRequiredMessage))
    ensures key != "" ==> r == if key == "function" then Failure(Error(KeyRequiredMessage)) else Success(key)
    ensures key == "" && captured != "" ==>
              r == if captured == "function" then Failure(Error(KeyRequiredMessage)) else Success(captured)
    ensures key == "" && captured == "" && !FallsBackToCtorName(d, kind) ==> r.Failure?
    ensures key == "" && captured == "" && FallsBackToCtorName(d, kind) ==>
              r == if ctorName in {"", "function"} then Failure(Error(KeyRequiredMessage)) else Success(ctorName)
  {
    var name :=
      if key != "" then key
      else if captured != "" then captured
      else if FallsBackToCtorName(d, kind) then ctorName
      else "";
    if name == "" || name == "function" then Failure(Error(KeyRequiredMessage)) else Success(name)
  }

  /** Functions and classes can be constructed with `new`; methods and arrow functions cannot. */
  predicate Constructable(kind: HeaderKind)
  {
    match kind
    case MethodHeader => false
    case FatArrow => false
    case NamedFunction => true
    case AnonymousFunction => true
    case ClassWithCtor => true
    case ClassWithoutCtor => true
  }

  /**
   * The `constructable` flag of a type info.  src/util.ts derives it from
   * the header that matched.  src/util.js keeps no flag: its builder simply
   * calls `new`, which works exactly when the function is a constructor, so
   * the flag is the function's own `newable`.  A header is no guide there:
   * `function(a) {}` matches the method pattern of src/util.js but is an
   * ordinary, constructable function.
   */
  function ConstructableFlag(d: Dialect, f: Function, kind: HeaderKind): (b: bool)
    ensures d == TypeScript ==> (b <==> kind in {NamedFunction, AnonymousFunction, ClassWithCtor, ClassWithoutCtor})
    ensures d == JavaScript ==> (b <==> f.newable)
  {
    if d == TypeScript then Constructable(kind) else f.newable
  }

  lemma ConstructableKinds(kind: HeaderKind)
    ensures Constructable(kind) <==> kind in {NamedFunction, AnonymousFunction, ClassWithCtor, ClassWithoutCtor}
    ensures !Constructable(kind) <==> kind in {MethodHeader, FatArrow}
  {
  }

  // ---------------------------------------------------------------------
  // Parameters

  /**
   * One piece of the split signature at split index `i`: nothing for a
   * blank piece (a dangling comma), a doc-comment parameter, or else a
   * parameter resolved through the `$arg:` prefix.
   */
  function ParsePiece(i: nat, piece: string): (r: Option<Argument>)
    ensures r.None? <==> Trim(piece) == ""
    ensures r.Some? ==> r.value.position == i
  {
    var t := Trim(piece);
    if t == "" then None
    else match DocCommentParam(Current, t)
      case Some((ty, n)) => Some(Argument(i, ty, n, DocComment))
      case None => Some(Argument(i, ArgPrefix + t, t, Arg))
  }

  /** Each argument's key: the commented type, else the prefixed parameter text. */
  lemma ParsePieceForm(i: nat, piece: string)
    requires ParsePiece(i, piece).Some?
    ensures var a := ParsePiece(i, piece).value;
            var t := Trim(piece);
            (a.parsedAs == DocComment <==> DocCommentParam(Current, t).Some?) &&
            (a.parsedAs == DocComment ==> (a.argType, a.name) == DocCommentParam(Current, t).value) &&
            (a.parsedAs == Arg ==> a.argType == ArgPrefix + t && a.name == t)
  {
  }

  /** Every piece of the split signature parsed at its split index. */
  function Parsed(pieces: seq<string>): (r: seq<Option<Argument>>)
    ensures |r| == |pieces|
  {
    seq(|pieces|, i requires 0 <= i < |pieces| => ParsePiece(i, pieces[i]))
  }

  /** Every parsed argument carries the index of its piece. */
  predicate AtOwnIndex(parsed: seq<Option<Argument>>)
  {
    forall i :: 0 <= i < |parsed| && parsed[i].Some? ==> parsed[i].value.position == i
  }

  lemma ParsedAtOwnIndex(pieces: seq<string>)
    ensures AtOwnIndex(Parsed(pieces))
  {
    var parsed := Parsed(pieces);
    forall i | 0 <= i < |parsed| && parsed[i].Some?
      ensures parsed[i].value.position == i
    {
      assert parsed[i] == ParsePiece(i, pieces[i]);
    }
  }

  /** The arguments `forEach` pushes: the parsed pieces, blank ones skipped, in split order. */
  function Collect(parsed: seq<Option<Argument>>): (r: seq<Argument>)
    ensures |r| <= |parsed|
  {
    if parsed == [] then []
    else
      var n := |parsed| - 1;
      Collect(parsed[..n]) + if parsed[n].Some? then [parsed[n].value] else []
  }

  /** The arguments of a trimmed signature (none for an empty one). */
  function Args(signature: string): seq<Argument>
  {
    if signature == "" then [] else Collect(Parsed(Split(signature, ',')))
  }

  predicate StrictlyIncreasing(args: seq<Argument>)
  {
    forall i, j :: 0 <= i < j < |args| ==> args[i].position < args[j].position
  }

  /** Each collected argument is the parse of the piece at its position. */
  lemma {:induction false} CollectSound(parsed: seq<Option<Argument>>)
    requires AtOwnIndex(parsed)
    ensures forall j :: 0 <= j < |Collect(parsed)| ==>
              Collect(parsed)[j].position < |parsed| && parsed[Collect(parsed)[j].position] == Some(Collect(parsed)[j])
  {
    if parsed != [] {
      var n := |parsed| - 1;
      assert AtOwnIndex(parsed[..n]);
      CollectSound(parsed[..n]);
      var before := Collect(parsed[..n]);
      var args := Collect(parsed);
      assert args == before + if parsed[n].Some? then [parsed[n].value] else [];
      forall j | 0 <= j < |args|
        ensures args[j].position < |parsed| && parsed[args[j].position] == Some(args[j])
      {
        if j < |before| {
          assert args[j] == before[j];
          assert before[j].position < n && parsed[..n][before[j].position] == Some(before[j]);
          assert parsed[..n][args[j].position] == parsed[args[j].position];
        } else {
          assert args[j] == parsed[n].value && parsed[n].value.position == n;
        }
      }
    }
  }

  /** Positions strictly increase along the collected arguments. */
  lemma {:induction false} CollectIncreasing(parsed: seq<Option<Argument>>)
    requires AtOwnIndex(parsed)
    ensures StrictlyIncreasing(Collect(parsed))
  {
    if parsed != [] {
      var n := |parsed| - 1;
      assert AtOwnIndex(parsed[..n]);
      CollectIncreasing(parsed[..n]);
      CollectSound(parsed[..n]);
      var before := Collect(parsed[..n]);
      var args := Collect(parsed);
      assert args == before + if parsed[n].Some? then [parsed[n].value] else [];
      forall i, j | 0 <= i < j < |args|
        ensures args[i].position < args[j].position
      {
        assert args[i] == before[i] && before[i].position < n;
        if j < |before| {
          assert args[j] == before[j];
        } else {
          assert args[j] == parsed[n].value;
        }
      }
    }
  }

  /** Every non-blank piece has its argument. */
  lemma {:induction false} CollectComplete(parsed: seq<Option<Argument>>, i: nat)
    requires AtOwnIndex(parsed)
    requires i < |parsed| && parsed[i].Some?
    ensures exists j :: 0 <= j < |Collect(parsed)| && Collect(parsed)[j].position == i
  {
    var n := |parsed| - 1;
    var args := Collect(parsed);
    var before := Collect(parsed[..n]);
    assert args[..|before|] == before;
    if i < n {
      assert AtOwnIndex(parsed[..n]);
      assert parsed[..n][i] == parsed[i];
      CollectComplete(parsed[..n], i);
      var j :| 0 <= j < |before| && before[j].position == i;
      assert args[j] == before[j];
    } else {
      assert args[|args| - 1].position == i;
    }
  }

  /** `getTypeInfo`'s `forEach`: pushes one argument per non-blank piece. */
  method ParseArguments(signature: string) returns (args: seq<Argument>)
    ensures args == Args(signature)
  {
    args := [];
    if signature != "" {
      var pieces := Split(signature, ',');
      ghost var parsed := Parsed(pieces);
      for i := 0 to |pieces|
        invariant args == Collect(parsed[..i])
      {
        assert parsed[..i + 1][..i] == parsed[..i];
        var a := ParsePiece(i, pieces[i]);
        assert a == parsed[i];
        if a.Some? {
          args := args + [a.value];
        }
      }
      assert parsed[..|pieces|] == parsed;
    }
  }

  // ---------------------------------------------------------------------
  // getTypeInfo

  /** The header the dialect's pattern list found (src/util.ts uses a separate pattern for methods). */
  function HeaderFor(d: Dialect, f: Function, asMethod: bool): Option<Header>
  {
    match d
    case TypeScript => if asMethod then f.headers.tsMethod else f.headers.ts
    case JavaScript => f.headers.js
  }

  /** `getTypeInfo(ctor, key, type)`, with the capture groups as written or as intended. */
  function TypeInfoWith(d: Dialect, ctor: Value, key: string, asMethod: bool, asWritten: bool): Result<TypeInfo>
  {
    match VerifyCtorType(d, ctor)
    case Failure(e) => Failure(e)
    case Success(f) =>
      match HeaderFor(d, f, asMethod)
      case None => Failure(Error(UnparsableMessage(f)))
      case Some(h) =>
        var groups := if asWritten then GroupsAsWritten(d, h) else Groups(h);
        match TypeName(d, key, groups.0, h.kind, f.name)
        case Failure(e) => Failure(e)
        case Success(name) => Success(TypeInfo(Args(Trim(groups.1)), f, name, ConstructableFlag(d, f, h.kind)))
  }

  /** `getTypeInfo` as the rest of the model uses it: every header's parameter text is parsed. */
  function TypeInfoOf(d: Dialect, ctor: Value, key: string, asMethod: bool): Result<TypeInfo>
  {
    TypeInfoWith(d, ctor, key, asMethod, false)
  }

  /** `getTypeInfo` with src/util.ts's single-group anonymous-function pattern. */
  function TypeInfoAsWritten(d: Dialect, ctor: Value, key: string, asMethod: bool): Result<TypeInfo>
  {
    TypeInfoWith(d, ctor, key, asMethod, true)
  }

  /**
   * Only the anonymous-function pattern of src/util.ts is affected: for every
   * other header, and in src/util.js, the two agree.
   */
  lemma AsWrittenAgrees(d: Dialect, ctor: Value, key: string, asMethod: bool)
    requires ctor.Fn? && HeaderFor(d, ctor.f, asMethod).Some?
    requires d == JavaScript || HeaderFor(d, ctor.f, asMethod).value.kind != AnonymousFunction
    ensures TypeInfoAsWritten(d, ctor, key, asMethod) == TypeInfoOf(d, ctor, key, asMethod)
  {
  }

  /**
   * As written, `function(/** Foo */ foo) {}` registered under `Bar` gets no
   * parameters at all, and without a key its parameter text becomes its key.
   */
  lemma AnonymousParametersDropped(f: Function)
    requires f.headers.ts == Some(Header(AnonymousFunction, "", "/** Foo */ foo"))
    ensures TypeInfoAsWritten(TypeScript, Fn(f), "Bar", false) == Success(TypeInfo([], f, "Bar", true))
    ensures TypeInfoAsWritten(TypeScript, Fn(f), "", false) == Success(TypeInfo([], f, "/** Foo */ foo", true))
  {
    assert Trim("") == "";
  }

  /** The single parameter `/** Foo */ foo` parses as a doc comment. */
  lemma FooParameter()
    ensures Args(Trim(FooText)) == [Argument(0, "Foo", "foo", DocComment)]
  {
    FooTrimmed();
    FooPiece();
    assert Split(FooText, ',') == [FooText] by {
      SplitNoSeparator(FooText, ',');
    }
    assert Parsed([FooText]) == [ParsePiece(0, FooText)];
    assert [ParsePiece(0, FooText)][..0] == [];
  }

  const FooText := "/** Foo */ foo"

  lemma FooTrimmed()
    ensures Trim(FooText) == FooText
  {
    var p := FooText;
    assert !IsSpace(p[0]);
    assert TrimStart(p) == p;
    assert !IsSpace(p[|p| - 1]);
  }

  lemma FooPiece()
    ensures ParsePiece(0, FooText) == Some(Argument(0, "Foo", "foo", DocComment))
  {
    FooTrimmed();
    assert FooText == "/**" + " " + "Foo" + " " + "*" + "/" + " " + "foo";
    DocCommentRoundTrip(Current, " ", "Foo", " ", "*", " ", "foo");
  }

  lemma {:induction false} SplitNoSeparator(s: string, sep: char)
    requires sep !in s
    ensures Split(s, sep) == [s]
  {
    if s != [] {
      SplitNoSeparator(s[1..], sep);
      assert s == [s[0]] + s[1..];
    }
  }

  /** As intended, the same constructor has its one doc-comment parameter ... */
  lemma AnonymousParametersParsed(f: Function)
    requires f.headers.ts == Some(Header(AnonymousFunction, "", FooText))
    ensures TypeInfoOf(TypeScript, Fn(f), "Bar", false) == Success(TypeInfo([Argument(0, "Foo", "foo", DocComment)], f, "Bar", true))
  {
    FooParameter();
    var h := Header(AnonymousFunction, "", FooText);
    assert TypeName(TypeScript, "Bar", h.name, h.kind, f.name) == Success("Bar");
  }

  /** ... and without a key it is rejected, since an anonymous function has no name to fall back on. */
  lemma AnonymousNeedsKey(f: Function)
    requires f.headers.ts == Some(Header(AnonymousFunction, "", FooText))
    ensures TypeInfoOf(TypeScript, Fn(f), "", false) == Failure(Error(KeyRequiredMessage))
  {
  }

  /**
   * Every parameter the header lists is reported: a successful type info
   * has exactly one argument per non-blank piece of the trimmed parameter
   * text, in order, each parsed at its split index.
   */
  lemma TypeInfoArgs(d: Dialect, ctor: Value, key: string, asMethod: bool)
    requires TypeInfoOf(d, ctor, key, asMethod).Success?
    ensures var sig := Trim(HeaderFor(d, ctor.f, asMethod).value.params);
            var args := TypeInfoOf(d, ctor, key, asMethod).value.args;
            (sig == "" ==> args == []) &&
            (sig != "" ==>
              var pieces := Split(sig, ',');
              StrictlyIncreasing(args) &&
              (forall j :: 0 <= j < |args| ==>
                 args[j].position < |pieces| && ParsePiece(args[j].position, pieces[args[j].position]) == Some(args[j])) &&
              (forall i :: 0 <= i < |pieces| && Trim(pieces[i]) != "" ==>
                 exists j :: 0 <= j < |args| && args[j].position == i))
  {
    var sig := Trim(HeaderFor(d, ctor.f, asMethod).value.params);
    if sig != "" {
      var pieces := Split(sig, ',');
      var parsed := Parsed(pieces);
      ParsedAtOwnIndex(pieces);
      CollectSound(parsed);
      CollectIncreasing(parsed);
      forall i | 0 <= i < |pieces| && Trim(pieces[i]) != ""
        ensures exists j :: 0 <= j < |Collect(parsed)| && Collect(parsed)[j].position == i
      {
        assert parsed[i] == ParsePiece(i, pieces[i]);
        CollectComplete(parsed, i);
      }
    }
  }

  /** `getTypeInfo`: the constructor check, key selection and the `forEach` over the pieces. */
  method GetTypeInfo(d: Dialect, ctor: Value, key: string, asMethod: bool) returns (r: Result<TypeInfo>)
    ensures r == TypeInfoOf(d, ctor, key, asMethod)
  {
    var checked := VerifyCtorType(d, ctor);
    if checked.Failure? {
      return Failure(checked.error);
    }
    var f := checked.value;
    var header := HeaderFor(d, f, asMethod);
    if header.None? {
      return Failure(Error(UnparsableMessage(f)));
    }
    var h := header.value;
    var typeName := TypeName(d, key, h.name, h.kind, f.name);
    if typeName.Failure? {
      return Failure(typeName.error);
    }
    var args := ParseArguments(Trim(h.params));
    r := Success(TypeInfo(args, f, typeName.value, ConstructableFlag(d, f, h.kind)));
  }
}
