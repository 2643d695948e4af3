/**
 * The JavaScript values the container manipulates.
 *
 * Constructors, factories, methods and handlers are opaque JavaScript
 * functions.  A `Function` value therefore carries, as data, everything the
 * library ever observes about one: its `name`, its source text, its declared
 * arity (`fn.length`), what the library's signature patterns matched in its
 * source text, the methods reachable through instances it constructs, and
 * what happens when it is called.
 */
module Js {

  datatype Option<+T> = None | Some(value: T)

  /** An exception as the library throws or propagates it. */
  datatype Exception =
    | Error(message: string)        // `new Error(message)`
    | TypeError(message: string)    // raised by the JavaScript runtime itself
    | RangeError(message: string)   // call stack exhausted
    | Thrown(value: Value)          // any value thrown by opaque user code

  datatype Result<+T> = Success(value: T) | Failure(error: Exception)

  /** Which of the signature patterns matched a function's source text. */
  datatype HeaderKind =
    | NamedFunction      // `function Foo(...) {`
    | AnonymousFunction  // `function (...) {`
    | ClassWithCtor      // `class Foo ... constructor(...) {`
    | ClassWithoutCtor   // `class Foo`
    | FatArrow           // `(...) =>`
    | MethodHeader       // `foo(...) {`

  /**
   * The outcome of matching one pattern: its kind, the name the header spells
   * out ("" when it has none) and the raw text between its parentheses (""
   * when it has none).  Which capture group each lands in is decided by the
   * pattern, see `Signatures.Groups`.
   */
  datatype Header = Header(kind: HeaderKind, name: string, params: string)

  /** What each of the library's pattern lists found in a function's source. */
  datatype Headers = Headers(
    ts: Option<Header>,        // first match of the pattern list in src/util.ts
    tsMethod: Option<Header>,  // match of the method pattern in src/util.ts
    js: Option<Header>,        // first match of the pattern list in src/util.js
    legacy: Option<Header>)    // match of the single pattern in src/sahara.js

  /** What a call to an opaque function does. */
  datatype Behaviour =
    | Returns(result: Value)        // returns this value
    | ReturnsNew(ctorName: string)  // returns a freshly allocated object
    | Throws(thrown: Value)         // throws this value

  datatype Function = Function(
    name: string,
    source: string,
    arity: nat,
    headers: Headers,
    prototype: map<string, Value>,
    behaviour: Behaviour,
    newable: bool)  // `new` accepts it: an ordinary function or a class, not an arrow function or a method

  /**
   * A JavaScript value.  Numbers are modelled as integers; objects are
   * references into a heap owned by whoever manipulates them.
   */
  datatype Value =
    | Undefined
    | Null
    | Bool(b: bool)
    | Num(n: int)
    | Str(s: string)
    | Obj(ref: nat, ctorName: Option<string>)  // `ctorName`: `obj.constructor.name`, if it has a constructor
    | Fn(f: Function)

  /** JavaScript truthiness (`!!v`). */
  predicate Truthy(v: Value)
  {
    match v
    case Undefined => false
    case Null => false
    case Bool(b) => b
    case Num(n) => n != 0
    case Str(s) => s != ""
    case Obj(_, _) => true
    case Fn(_) => true
  }

  /** `typeof v`. */
  function TypeOf(v: Value): string
  {
    match v
    case Undefined => "undefined"
    case Null => "object"
    case Bool(_) => "boolean"
    case Num(_) => "number"
    case Str(_) => "string"
    case Obj(_, _) => "object"
    case Fn(_) => "function"
  }

  /** `v.constructor.name` for a value that has one (primitives are boxed). */
  function ConstructorName(v: Value): Option<string>
  {
    match v
    case Undefined => None
    case Null => None
    case Bool(_) => Some("Boolean")
    case Num(_) => Some("Number")
    case Str(_) => Some("String")
    case Obj(_, name) => name
    case Fn(_) => Some("Function")
  }

  function DigitChar(d: nat): char
    requires d < 10
  {
    "0123456789"[d]
  }

  /** The decimal rendering of a natural number, as `String(n)` gives it. */
  function NatToString(n: nat): (s: string)
    ensures |s| > 0
    ensures forall i :: 0 <= i < |s| ==> '0' <= s[i] <= '9'
    decreases n
  {
    if n < 10 then [DigitChar(n)] else NatToString(n / 10) + [DigitChar(n % 10)]
  }

  function IntToString(n: int): string
  {
    if n < 0 then "-" + NatToString(-n) else NatToString(n)
  }

  /** `String(v)` for the values the library stringifies. */
  function ToJsString(v: Value): string
  {
    match v
    case Undefined => "undefined"
    case Null => "null"
    case Bool(b) => if b then "true" else "false"
    case Num(n) => IntToString(n)
    case Str(s) => s
    case Obj(_, _) => "[object Object]"
    case Fn(f) => f.source
  }

  function Reverse<T>(s: seq<T>): (r: seq<T>)
    ensures |r| == |s|
    ensures forall i :: 0 <= i < |s| ==> r[i] == s[|s| - 1 - i]
  {
    if s == [] then [] else Reverse(s[1..]) + [s[0]]
  }

  /** `parts.join(sep)`. */
  function Join(parts: seq<string>, sep: string): string
  {
    if parts == [] then ""
    else if |parts| == 1 then parts[0]
    else Join(parts[..|parts| - 1], sep) + sep + parts[|parts| - 1]
  }

  predicate StartsWith(s: string, prefix: string)
  {
    |prefix| <= |s| && s[..|prefix|] == prefix
  }

  /** The characters `\s` matches and `trim()` strips: white space and line terminators. */
  predicate IsSpace(c: char)
  {
    c == ' ' || c == '\t' || c == '\n' || c == '\U{000B}' || c == '\U{000C}' || c == '\r' ||
    c == '\U{00A0}' || c == '\U{1680}' || ('\U{2000}' <= c <= '\U{200A}') ||
    c == '\U{2028}' || c == '\U{2029}' || c == '\U{202F}' || c == '\U{205F}' ||
    c == '\U{3000}' || c == '\U{FEFF}'
  }

  /** The characters `\w` matches. */
  predicate IsWordChar(c: char)
  {
    ('a' <= c <= 'z') || ('A' <= c <= 'Z') || ('0' <= c <= '9') || c == '_'
  }

  predicate AllSpace(s: string)
  {
    forall i :: 0 <= i < |s| ==> IsSpace(s[i])
  }

  function TrimStart(s: string): (r: string)
    ensures |r| <= |s|
    ensures r == [] || !IsSpace(r[0])
  {
    if s != [] && IsSpace(s[0]) then TrimStart(s[1..]) else s
  }

  function TrimEnd(s: string): (r: string)
    ensures |r| <= |s|
    ensures r == [] || !IsSpace(r[|r| - 1])
  {
    if s != [] && IsSpace(s[|s| - 1]) then TrimEnd(s[..|s| - 1]) else s
  }

  lemma {:induction false} TrimStartSpec(s: string)
    ensures TrimStart(s) == s[|s| - |TrimStart(s)|..]
    ensures AllSpace(s[..|s| - |TrimStart(s)|])
  {
    if s != [] && IsSpace(s[0]) {
      TrimStartSpec(s[1..]);
      assert s[..|s| - |TrimStart(s)|] == [s[0]] + s[1..][..|s| - 1 - |TrimStart(s)|];
    }
  }

  lemma {:induction false} TrimEndSpec(s: string)
    ensures TrimEnd(s) == s[..|TrimEnd(s)|]
    ensures AllSpace(s[|TrimEnd(s)|..])
  {
    if s != [] && IsSpace(s[|s| - 1]) {
      TrimEndSpec(s[..|s| - 1]);
      assert s[|TrimEnd(s)|..] == s[..|s| - 1][|TrimEnd(s)|..] + [s[|s| - 1]];
    }
  }

  /** `s.trim()`: neither starts nor ends with white space. */
  function Trim(s: string): (r: string)
    ensures |r| <= |s|
    ensures r == [] || (!IsSpace(r[0]) && !IsSpace(r[|r| - 1]))
  {
    var t := TrimStart(s);
    TrimEndSpec(t);
    TrimEnd(t)
  }

  /** What `trim()` cuts off on either side of `s` is white space, and nothing else changes. */
  lemma TrimSpec(s: string)
    ensures exists i :: 0 <= i <= i + |Trim(s)| <= |s| && Trim(s) == s[i..i + |Trim(s)|] &&
                        AllSpace(s[..i]) && AllSpace(s[i + |Trim(s)|..])
  {
    var t := TrimStart(s);
    var r := TrimEnd(t);
    var i := |s| - |t|;
    TrimStartSpec(s);
    TrimEndSpec(t);
    assert s[i..i + |r|] == r;
    assert s[i + |r|..] == t[|r|..];
  }

  /** `s.split(sep)` for a one-character separator. */
  function Split(s: string, sep: char): (r: seq<string>)
    ensures |r| >= 1
    ensures forall i :: 0 <= i < |r| ==> sep !in r[i]
  {
    if s == [] then [""]
    else
      var rest := Split(s[1..], sep);
      if s[0] == sep then [""] + rest else [[s[0]] + rest[0]] + rest[1..]
  }

  /** Joining the pieces of a split with the separator gives back the string. */
  lemma {:induction false} SplitJoin(s: string, sep: char)
    ensures Join(Split(s, sep), [sep]) == s
  {
    if s != [] {
      var rest := Split(s[1..], sep);
      SplitJoin(s[1..], sep);
      if s[0] == sep {
        JoinCons("", rest, [sep]);
      } else {
        JoinHead([s[0]], rest, [sep]);
      }
      assert s == [s[0]] + s[1..];
    }
  }

  lemma {:induction false} JoinCons(a: string, rest: seq<string>, sep: string)
    requires |rest| >= 1
    ensures Join([a] + rest, sep) == a + sep + Join(rest, sep)
    decreases |rest|
  {
    if |rest| > 1 {
      var n := |rest|;
      assert ([a] + rest)[..n] == [a] + rest[..n - 1];
      JoinCons(a, rest[..n - 1], sep);
    } else {
      assert [a] + rest == [a, rest[0]];
    }
  }

  /** Prepending text to the first piece prepends it to the joined string. */
  lemma {:induction false} JoinHead(c: string, rest: seq<string>, sep: string)
    requires |rest| >= 1
    ensures Join([c + rest[0]] + rest[1..], sep) == c + Join(rest, sep)
    decreases |rest|
  {
    var n := |rest|;
    if n > 1 {
      JoinHead(c, rest[..n - 1], sep);
      assert ([c + rest[0]] + rest[1..])[..n - 1] == [c + rest[..n - 1][0]] + rest[..n - 1][1..];
    } else {
      assert [c + rest[0]] + rest[1..] == [c + rest[0]];
    }
  }
}
