/** The parts of syn's parser that the macro front end calls, as pure
    functions from a token list to a value and the tokens left over. Each
    one accepts the common forms of its syntax; the statement parser inside
    blocks is a parameter (`StmtParser`). */
module SynParse {
  import opened Tokens
  import opened Syntax

  datatype Parsed<T> = Parsed(value: T, rest: seq<Token>)

  /** `rest` is what is left of `ts` once a prefix has been consumed. */
  predicate IsSuffix(rest: seq<Token>, ts: seq<Token>) {
    |rest| <= |ts| && rest == ts[|ts| - |rest|..]
  }

  lemma SuffixOfSuffix(a: seq<Token>, b: seq<Token>, c: seq<Token>)
    requires IsSuffix(a, b) && IsSuffix(b, c)
    ensures IsSuffix(a, c)
  {
    assert c[|c| - |b|..][|b| - |a|..] == c[|c| - |a|..];
  }

  lemma DropIsSuffix(ts: seq<Token>, k: nat)
    requires k <= |ts|
    ensures IsSuffix(ts[k..], ts)
  {
  }

  lemma SuffixStreamSize(rest: seq<Token>, ts: seq<Token>)
    requires IsSuffix(rest, ts)
    ensures StreamSize(rest) <= StreamSize(ts)
    ensures |rest| < |ts| ==> StreamSize(rest) < StreamSize(ts)
  {
    SuffixSize(ts, |ts| - |rest|);
  }

  /** Rust's strict and reserved keywords, which an `Ident` parse refuses. */
  predicate Keyword(name: string) {
    || name == "_" || name == "abstract" || name == "as" || name == "async" || name == "await"
    || name == "become" || name == "box" || name == "break" || name == "const" || name == "continue"
    || name == "crate" || name == "do" || name == "dyn" || name == "else" || name == "enum"
    || name == "extern" || name == "false" || name == "final" || name == "fn" || name == "for"
    || name == "if" || name == "impl" || name == "in" || name == "let" || name == "loop"
    || name == "macro" || name == "match" || name == "mod" || name == "move" || name == "mut"
    || name == "override" || name == "priv" || name == "pub" || name == "ref" || name == "return"
    || name == "Self" || name == "self" || name == "static" || name == "struct" || name == "super"
    || name == "trait" || name == "true" || name == "try" || name == "type" || name == "typeof"
    || name == "unsafe" || name == "unsized" || name == "use" || name == "virtual" || name == "where"
    || name == "while" || name == "yield"
  }

  /** `Keyword`, behind a recursion that the verifier
      unfolds only on request, so that a symbolic identifier is not
      compared against every keyword in every proof. */
  predicate KeywordAfter(name: string, steps: nat)
    decreases steps
  {
    if steps == 0 then Keyword(name) else KeywordAfter(name, steps - 1)
  }

  predicate IsKeyword(name: string) {
    KeywordAfter(name, 2)
  }

  lemma IsKeywordMeans(name: string)
    ensures IsKeyword(name) <==> Keyword(name)
  {
    assert KeywordAfter(name, 2) == KeywordAfter(name, 1) == KeywordAfter(name, 0);
  }

  /** The contextual words of the grammars are identifiers, not keywords:
      no keyword of the same length starts with the same letter. */
  lemma ContextualWords()
    ensures !IsKeyword("yields") && !IsKeyword("gen") && !IsKeyword("async_gen")
  {
    YieldsIsNoKeyword();
    GenIsNoKeyword();
    IsKeywordMeans("async_gen");
  }

  lemma YieldsIsNoKeyword()
    ensures !IsKeyword("yields")
  {
    assert "yields"[0] == 'y';
    IsKeywordMeans("yields");
  }

  lemma GenIsNoKeyword()
    ensures !IsKeyword("gen")
  {
    assert "gen"[0] == 'g';
    IsKeywordMeans("gen");
  }

  predicate IsPlainIdent(t: Token) {
    t.Ident? && !IsKeyword(t.name)
  }

  /** The keywords that may still start a path segment. */
  predicate SegmentKeyword(name: string) {
    name == "super" || name == "self" || name == "Self" || name == "crate"
  }

  /** A name that may start a path segment, behind the same unfolding guard
      as `IsKeyword`. */
  predicate SegmentNameAfter(name: string, steps: nat)
    decreases steps
  {
    if steps == 0 then !Keyword(name) || SegmentKeyword(name) else SegmentNameAfter(name, steps - 1)
  }

  predicate IsPathSegmentIdent(t: Token) {
    t.Ident? && SegmentNameAfter(t.name, 2)
  }

  lemma IsPathSegmentIdentMeans(t: Token)
    ensures IsPathSegmentIdent(t) <==> t.Ident? && (!IsKeyword(t.name) || SegmentKeyword(t.name))
  {
    if t.Ident? {
      IsKeywordMeans(t.name);
      assert SegmentNameAfter(t.name, 2) == SegmentNameAfter(t.name, 1) == SegmentNameAfter(t.name, 0);
    }
  }

  predicate StartsWithPathSep(ts: seq<Token>) {
    |ts| >= 2 && ts[0] == Punct(':') && ts[1] == Punct(':')
  }

  /** `Ident::parse`: a non-keyword identifier. */
  function ParseIdent(ts: seq<Token>): (r: Result<Parsed<string>>)
    ensures r.Ok? <==> |ts| > 0 && IsPlainIdent(ts[0])
    ensures r.Ok? ==> r.value == Parsed(ts[0].name, ts[1..])
  {
    if |ts| > 0 && IsPlainIdent(ts[0]) then Ok(Parsed(ts[0].name, ts[1..]))
    else Err(SynError("expected identifier"))
  }

  /** `Path::parse_mod_style`, the path of an attribute or of `pub(in path)`. */
  function ModPath(ts: seq<Token>): (r: Result<Parsed<seq<string>>>)
    ensures r.Ok? ==> IsSuffix(r.value.rest, ts) && |r.value.rest| < |ts| && r.value.value != []
    decreases |ts|
  {
    if |ts| == 0 || !IsPathSegmentIdent(ts[0]) then Err(SynError("expected path"))
    else if StartsWithPathSep(ts[1..]) then
      if |ts| >= 4 && IsPathSegmentIdent(ts[3]) then
        match ModPath(ts[3..])
        case Err(e) => Err(e)
        case Ok(p) =>
          SuffixOfSuffix(p.rest, ts[3..], ts);
          Ok(Parsed([ts[0].name] + p.value, p.rest))
      else Err(SynError("expected path segment"))
    else Ok(Parsed([ts[0].name], ts[1..]))
  }

  /** One outer attribute `#[path tokens]`. */
  function ParseAttribute(ts: seq<Token>): (r: Result<Parsed<Attribute>>)
    requires StartsWithPunct(ts, '#')
    ensures r.Ok? ==> |ts| >= 2 && r.value.rest == ts[2..]
  {
    if |ts| < 2 || !(ts[1].Group? && ts[1].delimiter == Bracket) then Err(SynError("expected square brackets"))
    else match ModPath(ts[1].stream)
      case Err(e) => Err(e)
      case Ok(p) => Ok(Parsed(Attribute(p.value, p.rest), ts[2..]))
  }

  /** `Attribute::parse_outer`: attributes for as long as a `#` follows. */
  function ParseOuterAttributes(ts: seq<Token>): (r: Result<Parsed<seq<Attribute>>>)
    ensures r.Ok? ==> IsSuffix(r.value.rest, ts) && !StartsWithPunct(r.value.rest, '#')
    ensures r.Ok? && r.value.value == [] ==> r.value.rest == ts
    ensures !StartsWithPunct(ts, '#') ==> r == Ok(Parsed([], ts))
    decreases |ts|
  {
    if StartsWithPunct(ts, '#') then
      match ParseAttribute(ts)
      case Err(e) => Err(e)
      case Ok(a) =>
        match ParseOuterAttributes(a.rest)
        case Err(e) => Err(e)
        case Ok(more) =>
          SuffixOfSuffix(more.rest, a.rest, ts);
          Ok(Parsed([a.value] + more.value, more.rest))
    else Ok(Parsed([], ts))
  }

  /** `Visibility::parse`: `pub`, `pub(crate)`, `pub(self)`, `pub(super)`,
      `pub(in path)`, `crate`, or nothing. */
  function ParseVisibility(ts: seq<Token>): (r: Result<Parsed<Visibility>>)
    ensures r.Ok? ==> IsSuffix(r.value.rest, ts)
    ensures !StartsWithIdent(ts, "pub") && !StartsWithIdent(ts, "crate") ==> r == Ok(Parsed(Inherited, ts))
  {
    if StartsWithIdent(ts, "pub") then
      if |ts| >= 2 && ts[1].Group? && ts[1].delimiter == Parenthesis then
        var scope := ts[1].stream;
        if |scope| == 1 && (IsIdent(scope[0], "crate") || IsIdent(scope[0], "self") || IsIdent(scope[0], "super")) then
          Ok(Parsed(Restricted(scope), ts[2..]))
        else if StartsWithIdent(scope, "in") then
          match ModPath(scope[1..])
          case Err(e) => Err(e)
          case Ok(_) => Ok(Parsed(Restricted(scope), ts[2..]))
        else Ok(Parsed(Public, ts[1..]))
      else Ok(Parsed(Public, ts[1..]))
    else if StartsWithIdent(ts, "crate") && !StartsWithPathSep(ts[1..]) then
      Ok(Parsed(CrateVis, ts[1..]))
    else Ok(Parsed(Inherited, ts))
  }

  /** The index just past the `>` that closes the angle bracket opened
      before position `i`, at nesting `depth`; a `>` preceded by `-` is the
      arrow `->` and closes nothing. */
  function AngleEnd(ts: seq<Token>, i: nat, depth: nat): (r: Option<nat>)
    requires 1 <= i <= |ts| && depth >= 1
    ensures r.Some? ==> i < r.value <= |ts|
    decreases |ts| - i
  {
    if i == |ts| then None
    else if ts[i] == Punct('<') then AngleEnd(ts, i + 1, depth + 1)
    else if ts[i] == Punct('>') && ts[i - 1] != Punct('-') then
      if depth == 1 then Some(i + 1) else AngleEnd(ts, i + 1, depth - 1)
    else AngleEnd(ts, i + 1, depth)
  }

  /** `<` ... `>`: the tokens in between and what follows. */
  function ParseAngleBracketed(ts: seq<Token>): (r: Result<Parsed<seq<Token>>>)
    requires StartsWithPunct(ts, '<')
    ensures r.Ok? ==> IsSuffix(r.value.rest, ts) && |r.value.rest| < |ts|
  {
    match AngleEnd(ts, 1, 1)
    case None => Err(SynError("expected `>`"))
    case Some(k) => Ok(Parsed(ts[1..k - 1], ts[k..]))
  }

  /** Path segments `a<..>::b::c<..>` of a type path. */
  function ParsePathSegments(ts: seq<Token>): (r: Result<Parsed<seq<PathSegment>>>)
    ensures r.Ok? ==> IsSuffix(r.value.rest, ts) && |r.value.rest| < |ts| && r.value.value != []
    decreases |ts|
  {
    if |ts| == 0 || !IsPathSegmentIdent(ts[0]) then Err(SynError("expected identifier"))
    else
      var afterIdent := ts[1..];
      var args: Result<Parsed<seq<Token>>> :=
        if StartsWithPunct(afterIdent, '<') then ParseAngleBracketed(afterIdent) else Ok(Parsed([], afterIdent));
      match args
      case Err(e) => Err(e)
      case Ok(a) =>
        SuffixOfSuffix(a.rest, afterIdent, ts);
        var segment := PathSegment(ts[0].name, a.value);
        if StartsWithPathSep(a.rest) && |a.rest| >= 3 && IsPathSegmentIdent(a.rest[2]) then
          match ParsePathSegments(a.rest[2..])
          case Err(e) => Err(e)
          case Ok(more) =>
            SuffixOfSuffix(a.rest[2..], a.rest, ts);
            SuffixOfSuffix(more.rest, a.rest[2..], ts);
            Ok(Parsed([segment] + more.value, more.rest))
        else Ok(Parsed([segment], a.rest))
  }

  /** Trait and lifetime bounds after `impl` or `dyn`: `Bound (+ Bound)*`. */
  function ParseBounds(ts: seq<Token>): (r: Result<Parsed<()>>)
    ensures r.Ok? ==> IsSuffix(r.value.rest, ts) && |r.value.rest| < |ts|
    decreases |ts|
  {
    var bound: Result<Parsed<()>> :=
      if |ts| >= 2 && ts[0] == Punct('\'') && ts[1].Ident? then Ok(Parsed((), ts[2..]))
      else if |ts| >= 1 && ts[0].Group? && ts[0].delimiter == Parenthesis then Ok(Parsed((), ts[1..]))
      else if StartsWithPunct(ts, '?') then
        match ParsePathSegments(ts[1..])
        case Err(e) => Err(e)
        case Ok(p) => SuffixOfSuffix(p.rest, ts[1..], ts); Ok(Parsed((), p.rest))
      else
        match ParsePathSegments(ts)
        case Err(_) => Err(SynError("expected trait bound"))
        case Ok(p) => Ok(Parsed((), p.rest));
    match bound
    case Err(e) => Err(e)
    case Ok(b) =>
      if StartsWithPunct(b.rest, '+') then
        match ParseBounds(b.rest[1..])
        case Err(e) => Err(e)
        case Ok(more) =>
          SuffixOfSuffix(b.rest[1..], b.rest, ts);
          SuffixOfSuffix(more.rest, b.rest[1..], ts);
          Ok(more)
      else Ok(b)
  }

  /** The tokens consumed when `rest` is what is left of `ts`. */
  function Consumed(ts: seq<Token>, rest: seq<Token>): seq<Token>
    requires IsSuffix(rest, ts)
  {
    ts[..|ts| - |rest|]
  }

  /** A non-empty parenthesis: a tuple type, or one parenthesised type. */
  function ParseParenType(ts: seq<Token>): (r: Result<Parsed<Type>>)
    requires ts != [] && ts[0].Group? && ts[0].stream != []
    ensures r.Ok? ==> r.value.rest == ts[1..]
    decreases StreamSize(ts), 0
  {
    ElementSize(ts, 0);
    match ParseTypeList(ts[0].stream)
    case Err(e) => Err(e)
    case Ok(list) =>
      if |list.0| == 1 && !list.1 then Ok(Parsed(Other([ts[0]]), ts[1..]))
      else Ok(Parsed(Tuple(list.0), ts[1..]))
  }

  /** `&'a mut T`, `*const T`, `*mut T`, kept as their tokens. */
  function ParsePointerType(ts: seq<Token>): (r: Result<Parsed<Type>>)
    requires ts != [] && (ts[0] == Punct('&') || ts[0] == Punct('*'))
    ensures r.Ok? ==> IsSuffix(r.value.rest, ts) && |r.value.rest| < |ts|
    decreases StreamSize(ts), 0
  {
    var t := ts[0];
    var k1 := if t == Punct('&') && |ts| >= 3 && ts[1] == Punct('\'') && ts[2].Ident? then 3 else 1;
    var k := if |ts| > k1 && (IsIdent(ts[k1], "mut") || (t == Punct('*') && IsIdent(ts[k1], "const"))) then k1 + 1 else k1;
    if t == Punct('*') && k == 1 then Err(SynError("expected `mut` or `const` in raw pointer type"))
    else
      SuffixSize(ts, k);
      match ParseType(ts[k..])
      case Err(e) => Err(e)
      case Ok(p) =>
        SuffixOfSuffix(p.rest, ts[k..], ts);
        Ok(Parsed(Other(Consumed(ts, p.rest)), p.rest))
  }

  /** `<T as Trait>::Path`, a path with a qualified self. */
  function ParseQualifiedPath(ts: seq<Token>): (r: Result<Parsed<Type>>)
    requires StartsWithPunct(ts, '<')
    ensures r.Ok? ==> IsSuffix(r.value.rest, ts) && |r.value.rest| < |ts|
  {
    match ParseAngleBracketed(ts)
    case Err(e) => Err(e)
    case Ok(q) =>
      if StartsWithPathSep(q.rest) then
        match ParsePathSegments(q.rest[2..])
        case Err(e) => Err(e)
        case Ok(p) =>
          SuffixOfSuffix(q.rest[2..], q.rest, ts);
          SuffixOfSuffix(p.rest, q.rest[2..], ts);
          Ok(Parsed(Path(true, false, p.value), p.rest))
      else Err(SynError("expected `::`"))
  }

  /** `Type::parse`. Paths (plain, `::`-rooted or with a qualified self) and
      tuples are analysed; references, raw pointers, slices and arrays,
      `!`, `_`, parenthesised types and `impl`/`dyn` bounds are kept as
      their tokens. */
  function ParseType(ts: seq<Token>): (r: Result<Parsed<Type>>)
    ensures r.Ok? ==> IsSuffix(r.value.rest, ts) && |r.value.rest| < |ts|
    decreases StreamSize(ts), 1
  {
    if ts == [] then Err(SynError("expected type"))
    else
      var t := ts[0];
      if t.Group? && t.delimiter == Parenthesis then
        if t.stream == [] then Ok(Parsed(Tuple([]), ts[1..])) else ParseParenType(ts)
      else if t.Group? && t.delimiter == Bracket then Ok(Parsed(Other([t]), ts[1..]))
      else if t == Punct('!') || IsIdent(t, "_") then Ok(Parsed(Other([t]), ts[1..]))
      else if t == Punct('&') || t == Punct('*') then
        ParsePointerType(ts)
      else if IsIdent(t, "impl") || IsIdent(t, "dyn") then
        ParseImplTraitType(ts)
      else if t == Punct('<') then
        ParseQualifiedPath(ts)
      else if StartsWithPathSep(ts) then
        ParseGlobalPathType(ts)
      else if IsPathSegmentIdent(t) then
        match ParsePathSegments(ts)
        case Err(e) => Err(e)
        case Ok(p) => Ok(Parsed(Path(false, false, p.value), p.rest))
      else Err(SynError("expected type"))
  }

  /** `impl Bounds` and `dyn Bounds`, kept as their tokens. */
  function ParseImplTraitType(ts: seq<Token>): (r: Result<Parsed<Type>>)
    requires ts != []
    ensures r.Ok? ==> IsSuffix(r.value.rest, ts) && |r.value.rest| < |ts|
  {
    match ParseBounds(ts[1..])
    case Err(e) => Err(e)
    case Ok(b) =>
      SuffixOfSuffix(b.rest, ts[1..], ts);
      Ok(Parsed(Other(Consumed(ts, b.rest)), b.rest))
  }

  /** A path that starts with `::`. */
  function ParseGlobalPathType(ts: seq<Token>): (r: Result<Parsed<Type>>)
    requires StartsWithPathSep(ts)
    ensures r.Ok? ==> IsSuffix(r.value.rest, ts) && |r.value.rest| < |ts|
  {
    match ParsePathSegments(ts[2..])
    case Err(e) => Err(e)
    case Ok(p) =>
      SuffixOfSuffix(p.rest, ts[2..], ts);
      Ok(Parsed(Path(false, true, p.value), p.rest))
  }

  /** The comma-separated types inside a non-empty parenthesis, and whether
      a trailing comma ended them. */
  function ParseTypeList(s: seq<Token>): (r: Result<(seq<Type>, bool)>)
    ensures r.Ok? ==> r.value.0 != []
    decreases StreamSize(s), 2
  {
    match ParseType(s)
    case Err(e) => Err(e)
    case Ok(p) =>
      if p.rest == [] then Ok(([p.value], false))
      else if p.rest[0] != Punct(',') then Err(SynError("expected `,`"))
      else if p.rest[1..] == [] then Ok(([p.value], true))
      else
        SuffixOfSuffix(p.rest[1..], p.rest, s);
        SuffixStreamSize(p.rest[1..], s);
        match ParseTypeList(p.rest[1..])
        case Err(e) => Err(e)
        case Ok(more) => Ok(([p.value] + more.0, more.1))
  }

  /** Splits the tokens between the angle brackets of a generics list at
      the commas that are not nested in further angle brackets. */
  function SplitParams(ts: seq<Token>, depth: nat, cur: seq<Token>): seq<seq<Token>>
    decreases |ts|
  {
    if ts == [] then (if cur == [] then [] else [cur])
    else if ts[0] == Punct(',') && depth == 0 then
      (if cur == [] then [] else [cur]) + SplitParams(ts[1..], 0, [])
    else if ts[0] == Punct('<') then SplitParams(ts[1..], depth + 1, cur + [ts[0]])
    else if ts[0] == Punct('>') && depth > 0 && !(cur != [] && cur[|cur| - 1] == Punct('-')) then
      SplitParams(ts[1..], depth - 1, cur + [ts[0]])
    else SplitParams(ts[1..], depth, cur + [ts[0]])
  }

  /** One generic parameter: `'a: bounds`, a type parameter or a const one. */
  function ParseGenericParam(chunk: seq<Token>): (r: Result<GenericParam>)
    requires chunk != []
  {
    if |chunk| >= 2 && chunk[0] == Punct('\'') && chunk[1].Ident? then Ok(LifetimeParam(chunk[1].name, chunk[2..]))
    else if IsPlainIdent(chunk[0]) || IsIdent(chunk[0], "const") then Ok(TypeOrConstParam(chunk))
    else Err(SynError("expected generic parameter"))
  }

  function ParseGenericParams(chunks: seq<seq<Token>>): (r: Result<seq<GenericParam>>)
    requires forall i :: 0 <= i < |chunks| ==> chunks[i] != []
    ensures r.Ok? ==> |r.value| == |chunks|
  {
    if chunks == [] then Ok([])
    else match ParseGenericParam(chunks[0])
      case Err(e) => Err(e)
      case Ok(p) =>
        match ParseGenericParams(chunks[1..])
        case Err(e) => Err(e)
        case Ok(ps) => Ok([p] + ps)
  }

  lemma {:induction false} SplitParamsNonEmpty(ts: seq<Token>, depth: nat, cur: seq<Token>)
    ensures forall i :: 0 <= i < |SplitParams(ts, depth, cur)| ==> SplitParams(ts, depth, cur)[i] != []
    decreases |ts|
  {
    if ts == [] {
    } else if ts[0] == Punct(',') && depth == 0 {
      SplitParamsNonEmpty(ts[1..], 0, []);
    } else if ts[0] == Punct('<') {
      SplitParamsNonEmpty(ts[1..], depth + 1, cur + [ts[0]]);
    } else if ts[0] == Punct('>') && depth > 0 && !(cur != [] && cur[|cur| - 1] == Punct('-')) {
      SplitParamsNonEmpty(ts[1..], depth - 1, cur + [ts[0]]);
    } else {
      SplitParamsNonEmpty(ts[1..], depth, cur + [ts[0]]);
    }
  }

  /** `Generics::parse`: nothing unless a `<` follows (a `where` clause is
      not part of it). */
  function ParseGenerics(ts: seq<Token>): (r: Result<Parsed<Generics>>)
    ensures r.Ok? ==> IsSuffix(r.value.rest, ts)
    ensures !StartsWithPunct(ts, '<') ==> r == Ok(Parsed(Generics([]), ts))
  {
    if !StartsWithPunct(ts, '<') then Ok(Parsed(Generics([]), ts))
    else match ParseAngleBracketed(ts)
      case Err(e) => Err(e)
      case Ok(a) =>
        SplitParamsNonEmpty(a.value, 0, []);
        match ParseGenericParams(SplitParams(a.value, 0, []))
        case Err(e) => Err(e)
        case Ok(ps) => Ok(Parsed(Generics(ps), a.rest))
  }

  /** A function parameter pattern: `x`, `mut x`, `self`, `_`, or a tuple or
      slice pattern. */
  function ParsePat(ts: seq<Token>): (r: Result<Parsed<seq<Token>>>)
    ensures r.Ok? ==> IsSuffix(r.value.rest, ts) && |r.value.rest| < |ts| && r.value.value == Consumed(ts, r.value.rest)
  {
    if |ts| >= 2 && IsIdent(ts[0], "mut") && (IsPlainIdent(ts[1]) || IsIdent(ts[1], "self")) then Ok(Parsed(ts[..2], ts[2..]))
    else if |ts| >= 1 && (IsPlainIdent(ts[0]) || IsIdent(ts[0], "self") || IsIdent(ts[0], "_")) then Ok(Parsed(ts[..1], ts[1..]))
    else if |ts| >= 1 && ts[0].Group? && (ts[0].delimiter == Parenthesis || ts[0].delimiter == Bracket) then Ok(Parsed(ts[..1], ts[1..]))
    else Err(SynError("expected pattern"))
  }

  /** The receiver forms `self`, `mut self`, `&self`, `&mut self`, `&'a self`
      and `&'a mut self`, when no `:` follows them. */
  function ParseReceiver(ts: seq<Token>, attrs: seq<Attribute>): Option<Parsed<FnArg>> {
    var reference := StartsWithPunct(ts, '&');
    var k1 := if reference then 1 else 0;
    var hasLifetime := reference && |ts| >= 3 && ts[1] == Punct('\'') && ts[2].Ident?;
    var k2 := if hasLifetime then 3 else k1;
    var mutable := |ts| > k2 && IsIdent(ts[k2], "mut");
    var k3 := if mutable then k2 + 1 else k2;
    if |ts| > k3 && IsIdent(ts[k3], "self") && !StartsWithPunct(ts[k3 + 1..], ':') then
      Some(Parsed(Receiver(attrs, reference, if hasLifetime then Some(ts[2].name) else None, mutable), ts[k3 + 1..]))
    else None
  }

  /** `FnArg::parse` after the attributes: a receiver, or `pat: Type`. */
  function ParseFnArg(ts: seq<Token>, attrs: seq<Attribute>): (r: Result<Parsed<FnArg>>)
    ensures r.Ok? ==> IsSuffix(r.value.rest, ts) && |r.value.rest| < |ts|
    ensures r.Ok? ==> r.value.value.attrs == attrs
  {
    match ParseReceiver(ts, attrs)
    case Some(p) => Ok(p)
    case None =>
      match ParsePat(ts)
      case Err(e) => Err(e)
      case Ok(pat) =>
        if !StartsWithPunct(pat.rest, ':') then Err(SynError("expected `:`"))
        else
          match ParseType(pat.rest[1..])
          case Err(e) => Err(e)
          case Ok(ty) =>
            SuffixOfSuffix(pat.rest[1..], pat.rest, ts);
            SuffixOfSuffix(ty.rest, pat.rest[1..], ts);
            Ok(Parsed(Typed(attrs, pat.value, ty.value), ty.rest))
  }

  /** `Block::parse`: a brace group whose contents the statement parser accepts. */
  function ParseBlock(ts: seq<Token>, parseStmts: StmtParser): (r: Result<Parsed<seq<Stmt>>>)
    ensures r.Ok? <==> |ts| > 0 && ts[0].Group? && ts[0].delimiter == Brace && parseStmts(ts[0].stream).Ok?
    ensures r.Ok? ==> r.value == Parsed(parseStmts(ts[0].stream).value, ts[1..])
  {
    if |ts| > 0 && ts[0].Group? && ts[0].delimiter == Brace then
      match parseStmts(ts[0].stream)
      case Err(e) => Err(e)
      case Ok(stmts) => Ok(Parsed(stmts, ts[1..]))
    else Err(SynError("expected curly braces"))
  }

  function FirstBrace(ts: seq<Token>): (r: Option<nat>)
    ensures r.Some? ==> r.value < |ts| && ts[r.value].Group? && ts[r.value].delimiter == Brace
    ensures r.Some? ==> forall i :: 0 <= i < r.value ==> !(ts[i].Group? && ts[i].delimiter == Brace)
    ensures r.None? ==> forall i :: 0 <= i < |ts| ==> !(ts[i].Group? && ts[i].delimiter == Brace)
  {
    if ts == [] then None
    else if ts[0].Group? && ts[0].delimiter == Brace then Some(0)
    else match FirstBrace(ts[1..])
      case None => None
      case Some(k) => Some(k + 1)
  }

  /** A signature names a function: `fn` followed by an identifier. */
  predicate NamesFunction(sig: seq<Token>) {
    exists i :: 0 <= i < |sig| - 1 && IsIdent(sig[i], "fn") && IsPlainIdent(sig[i + 1])
  }

  /** The signature up to the first brace group, which must name a
      function, and the body block. */
  function ParseSignatureAndBody(ts: seq<Token>, parseStmts: StmtParser): (r: Result<Parsed<(seq<Token>, seq<Stmt>)>>)
    ensures r.Ok? ==> IsSuffix(r.value.rest, ts)
  {
    match FirstBrace(ts)
    case None => Err(SynError("expected curly braces"))
    case Some(k) =>
      if !NamesFunction(ts[..k]) then Err(SynError("expected `fn`"))
      else
        match ParseBlock(ts[k..], parseStmts)
        case Err(e) => Err(e)
        case Ok(b) =>
          assert b.rest == ts[k + 1..];
          Ok(Parsed((ts[..k], b.value), b.rest))
  }

  /** `ItemFn::parse`: attributes, visibility, the signature up to the body
      (kept as tokens), and the body block. */
  function ParseItemFn(ts: seq<Token>, parseStmts: StmtParser): (r: Result<Parsed<ItemFn>>)
    ensures r.Ok? ==> IsSuffix(r.value.rest, ts)
  {
    match ParseOuterAttributes(ts)
    case Err(e) => Err(e)
    case Ok(a) =>
      match ParseVisibility(a.rest)
      case Err(e) => Err(e)
      case Ok(v) =>
        match ParseSignatureAndBody(v.rest, parseStmts)
        case Err(e) => Err(e)
        case Ok(sb) =>
          SuffixOfSuffix(v.rest, a.rest, ts);
          SuffixOfSuffix(sb.rest, v.rest, ts);
          Ok(Parsed(ItemFn(a.value, v.value, sb.value.0, sb.value.1), sb.rest))
  }
}
