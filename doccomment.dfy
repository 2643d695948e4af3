/**
 * Recognising a constructor parameter annotated with its type in an inline
 * doc comment, as in `function Foo(/** Bar */ bar) {}`.
 *
 * Two regular expressions do this in the source.  Both match, in order:
 * the comment opener (slash, star, star), white space, the type (the first
 * capture group), white space, the closing stars and slash, white space, the
 * name (word characters, the second capture group) and trailing white space.
 * In src/util.ts and src/util.js the type is a lazy run of characters other
 * than `*` and white space, and one or more stars close the comment; in
 * src/sahara.js the type is a run of word characters and exactly one star
 * closes it.
 * Neighbouring parts of either pattern match disjoint sets of characters,
 * so a match, when there is one, is unique and the lazy `+?` changes
 * nothing.  Each pattern is therefore the deterministic automaton `Scan`
 * below, which reads the parameter one character at a time and collects the
 * two capture groups.
 */
module DocComments {
  import opened Js

  /** The pattern of src/util.ts and src/util.js, or the stricter one of src/sahara.js. */
  datatype Pattern = Current | Legacy

  /** Where the automaton is, after the leading slash and two stars. */
  datatype Phase =
    | BeforeType   // white space before the type
    | InType       // the first capture group
    | AfterType    // white space after the type
    | InStars      // after the first closing star
    | BeforeName   // white space after the closing slash
    | InName       // the second capture group
    | AfterName    // trailing white space

  /** The characters of the type: anything but `*` and white space; word characters in src/sahara.js. */
  predicate TypeChar(p: Pattern, c: char)
  {
    if p == Legacy then IsWordChar(c) else c != '*' && !IsSpace(c)
  }

  predicate IsType(p: Pattern, ty: string)
  {
    ty != [] && forall i :: 0 <= i < |ty| ==> TypeChar(p, ty[i])
  }

  predicate IsWord(n: string)
  {
    n != [] && forall i :: 0 <= i < |n| ==> IsWordChar(n[i])
  }

  predicate AllType(p: Pattern, ty: string)
  {
    forall i :: 0 <= i < |ty| ==> TypeChar(p, ty[i])
  }

  predicate AllWord(n: string)
  {
    forall i :: 0 <= i < |n| ==> IsWordChar(n[i])
  }

  /** What the rest of the parameter contributes to the two groups, by phase. */
  predicate Shape(p: Pattern, ph: Phase, groups: (string, string))
  {
    match ph
    case BeforeType => IsType(p, groups.0) && IsWord(groups.1)
    case InType => AllType(p, groups.0) && IsWord(groups.1)
    case AfterType => groups.0 == "" && IsWord(groups.1)
    case InStars => groups.0 == "" && IsWord(groups.1)
    case BeforeName => groups.0 == "" && IsWord(groups.1)
    case InName => groups.0 == "" && AllWord(groups.1)
    case AfterName => groups == ("", "")
  }

  function PrependType(c: char, r: Option<(string, string)>): Option<(string, string)>
  {
    match r
    case None => None
    case Some((ty, n)) => Some(([c] + ty, n))
  }

  function PrependName(c: char, r: Option<(string, string)>): Option<(string, string)>
  {
    match r
    case None => None
    case Some((ty, n)) => Some((ty, [c] + n))
  }

  /**
   * The automaton: the capture groups collected from `s` onwards in phase
   * `ph`, or `None` when the pattern cannot match.
   */
  function Scan(p: Pattern, s: string, ph: Phase): (r: Option<(string, string)>)
    ensures r.Some? ==> Shape(p, ph, r.value)
    decreases |s|
  {
    if s == [] then
      if ph == InName || ph == AfterName then Some(("", "")) else None
    else
      var c := s[0];
      var rest := s[1..];
      match ph
      case BeforeType =>
        if IsSpace(c) then Scan(p, rest, BeforeType)
        else if TypeChar(p, c) then PrependType(c, Scan(p, rest, InType))
        else None
      case InType =>
        if TypeChar(p, c) then PrependType(c, Scan(p, rest, InType))
        else if IsSpace(c) then Scan(p, rest, AfterType)
        else if c == '*' then Scan(p, rest, InStars)
        else None
      case AfterType =>
        if IsSpace(c) then Scan(p, rest, AfterType)
        else if c == '*' then Scan(p, rest, InStars)
        else None
      case InStars =>
        if c == '/' then Scan(p, rest, BeforeName)
        else if c == '*' && p == Current then Scan(p, rest, InStars)
        else None
      case BeforeName =>
        if IsSpace(c) then Scan(p, rest, BeforeName)
        else if IsWordChar(c) then PrependName(c, Scan(p, rest, InName))
        else None
      case InName =>
        if IsWordChar(c) then PrependName(c, Scan(p, rest, InName))
        else if IsSpace(c) then Scan(p, rest, AfterName)
        else None
      case AfterName =>
        if IsSpace(c) then Scan(p, rest, AfterName) else None
  }

  /**
   * The whole pattern on a trimmed parameter: the type and the name, when it
   * matches.  Whatever it captures is a well-formed type and name.
   */
  function DocCommentParam(p: Pattern, t: string): (r: Option<(string, string)>)
    ensures r.Some? ==> IsType(p, r.value.0) && IsWord(r.value.1)
  {
    if StartsWith(t, "/**") then Scan(p, t[3..], BeforeType) else None
  }

  predicate SkipsSpace(ph: Phase)
  {
    ph in {BeforeType, AfterType, BeforeName, AfterName}
  }

  /** White space is skipped in the phases that allow it. */
  lemma {:induction false} ScanSpaces(p: Pattern, sp: string, rest: string, ph: Phase)
    requires SkipsSpace(ph) && AllSpace(sp)
    ensures Scan(p, sp + rest, ph) == Scan(p, rest, ph)
  {
    if sp != [] {
      assert (sp + rest)[0] == sp[0] && IsSpace(sp[0]);
      assert (sp + rest)[1..] == sp[1..] + rest;
      ScanSpaces(p, sp[1..], rest, ph);
    } else {
      assert sp + rest == rest;
    }
  }

  /** A run of type characters is collected into the type. */
  lemma {:induction false} ScanType(p: Pattern, ty: string, rest: string)
    requires AllType(p, ty)
    ensures Scan(p, ty + rest, InType) ==
            match Scan(p, rest, InType) { case None => None case Some((t, n)) => Some((ty + t, n)) }
  {
    if ty != [] {
      assert (ty + rest)[0] == ty[0] && TypeChar(p, ty[0]);
      assert (ty + rest)[1..] == ty[1..] + rest;
      ScanType(p, ty[1..], rest);
      match Scan(p, rest, InType)
      case None =>
      case Some((t, n)) =>
        assert [ty[0]] + (ty[1..] + t) == ty + t;
    } else {
      assert ty + rest == rest;
      match Scan(p, rest, InType)
      case None =>
      case Some((t, n)) =>
        assert ty + t == t;
    }
  }

  /** A run of word characters is collected into the name. */
  lemma {:induction false} ScanName(p: Pattern, n: string, rest: string)
    requires AllWord(n)
    ensures Scan(p, n + rest, InName) ==
            match Scan(p, rest, InName) { case None => None case Some((t, m)) => Some((t, n + m)) }
  {
    if n != [] {
      assert (n + rest)[0] == n[0] && IsWordChar(n[0]);
      assert (n + rest)[1..] == n[1..] + rest;
      ScanName(p, n[1..], rest);
      match Scan(p, rest, InName)
      case None =>
      case Some((t, m)) =>
        assert [n[0]] + (n[1..] + m) == n + m;
    } else {
      assert n + rest == rest;
      match Scan(p, rest, InName)
      case None =>
      case Some((t, m)) =>
        assert n + m == m;
    }
  }

  /** After the closing slash: white space, then a name, is collected as the name. */
  lemma ScanFromName(p: Pattern, sp: string, n: string)
    requires AllSpace(sp) && IsWord(n)
    ensures Scan(p, sp + n, BeforeName) == Some(("", n))
  {
    ScanSpaces(p, sp, n, BeforeName);
    assert n[1..] + [] == n[1..];
    ScanName(p, n[1..], []);
    assert [n[0]] + n[1..] == n;
  }

  /** In src/util.ts and src/util.js, any number of further stars may precede the slash. */
  lemma {:induction false} ScanStars(stars: string, rest: string)
    requires forall i :: 0 <= i < |stars| ==> stars[i] == '*'
    ensures Scan(Current, stars + ("/" + rest), InStars) == Scan(Current, rest, BeforeName)
  {
    if stars != [] {
      assert (stars + ("/" + rest))[0] == '*';
      assert (stars + ("/" + rest))[1..] == stars[1..] + ("/" + rest);
      ScanStars(stars[1..], rest);
    } else {
      assert (stars + ("/" + rest))[0] == '/';
      assert (stars + ("/" + rest))[1..] == rest;
    }
  }

  /** The stars after the first one, then the slash, lead to the name. */
  lemma ScanFromStars(p: Pattern, stars: string, rest: string)
    requires stars != [] && forall i :: 0 <= i < |stars| ==> stars[i] == '*'
    requires p == Legacy ==> stars == "*"
    ensures Scan(p, stars[1..] + ("/" + rest), InStars) == Scan(p, rest, BeforeName)
  {
    if p == Current {
      ScanStars(stars[1..], rest);
    } else {
      assert stars[1..] + ("/" + rest) == "/" + rest;
      assert ("/" + rest)[1..] == rest;
    }
  }

  /** After the type: white space, then the first closing star. */
  lemma ScanAfterType(p: Pattern, sp: string, stars: string, rest: string)
    requires AllSpace(sp) && stars != [] && stars[0] == '*'
    ensures Scan(p, sp + (stars + rest), InType) == Scan(p, stars[1..] + rest, InStars)
  {
    var close := stars + rest;
    assert close[0] == '*' && close[1..] == stars[1..] + rest;
    if sp != [] {
      assert (sp + close)[0] == sp[0] && IsSpace(sp[0]);
      assert (sp + close)[1..] == sp[1..] + close;
      ScanSpaces(p, sp[1..], close, AfterType);
    } else {
      assert sp + close == close;
    }
  }

  /** From the start: white space, then the type, then whatever yields the name. */
  lemma ScanFromType(p: Pattern, sp: string, ty: string, rest: string, n: string)
    requires AllSpace(sp) && IsType(p, ty)
    requires Scan(p, rest, InType) == Some(("", n))
    ensures Scan(p, sp + (ty + rest), BeforeType) == Some((ty, n))
  {
    ScanSpaces(p, sp, ty + rest, BeforeType);
    assert (ty + rest)[0] == ty[0] && TypeChar(p, ty[0]);
    assert (ty + rest)[1..] == ty[1..] + rest;
    ScanType(p, ty[1..], rest);
    assert [ty[0]] + (ty[1..] + "") == ty;
  }

  /**
   * Round trip: a parameter written as the comment opener, white space, a
   * type, white space, the closing stars and slash (exactly one star in
   * src/sahara.js), white space and a name is recognised as exactly that
   * type and name.
   */
  lemma DocCommentRoundTrip(p: Pattern, sp1: string, ty: string, sp2: string, stars: string, sp3: string, n: string)
    requires AllSpace(sp1) && AllSpace(sp2) && AllSpace(sp3)
    requires stars != [] && forall i :: 0 <= i < |stars| ==> stars[i] == '*'
    requires p == Legacy ==> stars == "*"
    requires IsType(p, ty) && IsWord(n)
    ensures DocCommentParam(p, "/**" + sp1 + ty + sp2 + stars + "/" + sp3 + n) == Some((ty, n))
  {
    var tail := "/" + (sp3 + n);
    var rest := sp2 + (stars + tail);
    var t := "/**" + sp1 + ty + sp2 + stars + "/" + sp3 + n;
    assert t == "/**" + (sp1 + (ty + rest));
    assert t[3..] == sp1 + (ty + rest);
    ScanFromName(p, sp3, n);
    ScanFromStars(p, stars, sp3 + n);
    ScanAfterType(p, sp2, stars, tail);
    ScanFromType(p, sp1, ty, rest, n);
  }
}
