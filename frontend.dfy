/** The macro's front end: a cursor over the (macrofied) input, the three
    surface grammars chosen by a one-token selector, and the argument-list
    parser with its receiver rules. Every parsing method is proved against a
    pure specification function of the tokens it starts from. */
module FrontEnd {
  import opened Tokens
  import opened Syntax
  import opened SynParse

  /** What the front end recognises: an ordinary function whose body holds
      generator blocks, or a generator item with its own signature. */
  datatype ItemParse =
    | Ordinary(item: ItemFn)
    | Custom(attributes: seq<Attribute>, visibility: Visibility, isAsync: bool, name: string,
             generics: Generics, args: seq<FnArg>, yieldType: Option<Type>, body: seq<Stmt>)

  /** The part of a custom item read before its generics. */
  datatype Header = Header(attributes: seq<Attribute>, visibility: Visibility, isAsync: bool, name: string)

  const VariadicDiagnostic := Diagnostic("variadic arguments are not allowed in iterator items", None)
  const NoSelectorMessage := "expected an iterator item syntax token: `*`, `!`, `#`"
  const YieldsMessage := "expected contextual keyword `yields` or the start of an iterator body"
  const GenKeywordMessage := "expected keyword `gen` marking an iterator"

  /** A parse result together with the diagnostics emitted on the way. */
  datatype ArgsOutcome = ArgsOutcome(result: Result<seq<FnArg>>, emitted: seq<Diagnostic>)
  datatype ItemOutcome = ItemOutcome(result: Result<Parsed<ItemParse>>, emitted: seq<Diagnostic>)

  function Failed(message: string): ItemOutcome {
    ItemOutcome(Err(SynError(message)), [])
  }

  function FailedWith(e: SynError): ItemOutcome {
    ItemOutcome(Err(e), [])
  }

  predicate StartsWithDots(ts: seq<Token>) {
    |ts| >= 3 && ts[0] == Punct('.') && ts[1] == Punct('.') && ts[2] == Punct('.')
  }

  predicate StartsWithArrow(ts: seq<Token>) {
    |ts| >= 2 && ts[0] == Punct('-') && ts[1] == Punct('>')
  }

  // ---------------------------------------------------------------------
  // The argument list

  /** What one turn of the argument loop does with the tokens in front of it:
      fail, skip a `...`, or take one argument, which is the last one when
      no comma follows it. */
  datatype ArgStep =
    | Stop(error: SynError)
    | SkipVariadic(after: seq<Token>)
    | Accept(arg: FnArg, after: seq<Token>)
    | Last(arg: FnArg)

  /** One turn of the argument loop: the attributes, then `...` or one
      argument, the receiver rules, and the separating comma. */
  function ArgTurn(ts: seq<Token>, args: seq<FnArg>, hasReceiver: bool): (s: ArgStep)
    requires ts != []
    ensures (s.SkipVariadic? || s.Accept?) ==> |s.after| < |ts|
    ensures (s.Accept? || s.Last?) && s.arg.Receiver? ==> args == [] && !hasReceiver
  {
    match ParseOuterAttributes(ts)
    case Err(e) => Stop(e)
    case Ok(pa) =>
      var rest := pa.rest;
      if StartsWithDots(rest) then SkipVariadic(rest[3..])
      else match ParseFnArg(rest, pa.value)
        case Err(e) => Stop(e)
        case Ok(pf) =>
          var arg := pf.value;
          if arg.Receiver? && hasReceiver then Stop(SynError("unexpected second method receiver"))
          else if arg.Receiver? && args != [] then Stop(SynError("unexpected method receiver"))
          else if pf.rest == [] then Last(arg)
          else if pf.rest[0] != Punct(',') then Stop(SynError("expected `,`"))
          else Accept(arg, pf.rest[1..])
  }

  /** `ArgTurn`, behind a recursion the verifier unfolds only on request
      (like `IsKeyword`), so that proofs about the loop do not expand the
      whole argument grammar at every step. */
  function ArgTurnAfter(ts: seq<Token>, args: seq<FnArg>, hasReceiver: bool, steps: nat): (s: ArgStep)
    requires ts != []
    ensures (s.SkipVariadic? || s.Accept?) ==> |s.after| < |ts|
    ensures (s.Accept? || s.Last?) && s.arg.Receiver? ==> args == [] && !hasReceiver
    decreases steps
  {
    if steps == 0 then ArgTurn(ts, args, hasReceiver) else ArgTurnAfter(ts, args, hasReceiver, steps - 1)
  }

  function NextArg(ts: seq<Token>, args: seq<FnArg>, hasReceiver: bool): ArgStep
    requires ts != []
  {
    ArgTurnAfter(ts, args, hasReceiver, 2)
  }

  lemma NextArgMeans(ts: seq<Token>, args: seq<FnArg>, hasReceiver: bool)
    requires ts != []
    ensures NextArg(ts, args, hasReceiver) == ArgTurn(ts, args, hasReceiver)
  {
    assert ArgTurnAfter(ts, args, hasReceiver, 2) == ArgTurnAfter(ts, args, hasReceiver, 1)
        == ArgTurnAfter(ts, args, hasReceiver, 0);
  }

  /** The rest of an argument list, given the arguments read so far and
      whether one of them was a receiver. */
  function FnArgsFrom(ts: seq<Token>, args: seq<FnArg>, hasReceiver: bool): (o: ArgsOutcome)
    decreases |ts|
  {
    if ts == [] then ArgsOutcome(Ok(args), [])
    else match NextArg(ts, args, hasReceiver)
      case Stop(e) => ArgsOutcome(Err(e), [])
      case SkipVariadic(after) =>
        var o := FnArgsFrom(after, args, hasReceiver);
        ArgsOutcome(o.result, [VariadicDiagnostic] + o.emitted)
      case Accept(arg, after) => FnArgsFrom(after, args + [arg], hasReceiver || arg.Receiver?)
      case Last(arg) => ArgsOutcome(Ok(args + [arg]), [])
  }

  function FnArgs(ts: seq<Token>): ArgsOutcome {
    FnArgsFrom(ts, [], false)
  }

  /** A token cursor (`ParseStream`): the tokens not consumed yet. */
  class ParseStream {
    var rest: seq<Token>

    constructor(tokens: seq<Token>)
      ensures rest == tokens
    {
      rest := tokens;
    }
  }

  /** `parse_fn_args`: arguments separated by commas until the stream is
      empty. */
  method ParseFnArgs(input: ParseStream) returns (r: Result<seq<FnArg>>, emitted: seq<Diagnostic>)
    modifies input
    ensures r == FnArgs(old(input.rest)).result && emitted == FnArgs(old(input.rest)).emitted
    ensures r.Ok? ==> input.rest == []
  {
    var args: seq<FnArg> := [];
    var hasReceiver := false;
    emitted := [];
    ghost var total := FnArgs(input.rest);
    while input.rest != []
      invariant FnArgsFrom(input.rest, args, hasReceiver).result == total.result
      invariant emitted + FnArgsFrom(input.rest, args, hasReceiver).emitted == total.emitted
      decreases |input.rest|
    {
      var step := NextArg(input.rest, args, hasReceiver);
      match step
      case Stop(e) =>
        return Err(e), emitted;
      case SkipVariadic(after) =>
        AppendAssoc3(emitted, [VariadicDiagnostic], FnArgsFrom(after, args, hasReceiver).emitted);
        emitted := emitted + [VariadicDiagnostic];
        input.rest := after;
      case Last(arg) =>
        input.rest := [];
        args := args + [arg];
      case Accept(arg, after) =>
        input.rest := after;
        args := args + [arg];
        hasReceiver := hasReceiver || arg.Receiver?;
    }
    r := Ok(args);
  }

  // ---------------------------------------------------------------------
  // The three grammars

  /** `yields Type` after the arguments of an `fn*` item; any other
      identifier there is an error, and no identifier means no yield type. */
  function YieldsClause(ts: seq<Token>): (r: Result<Parsed<Option<Type>>>)
    ensures r.Ok? ==> IsSuffix(r.value.rest, ts)
  {
    if |ts| > 0 && IsPlainIdent(ts[0]) then
      if ts[0].name != "yields" then Err(SynError(YieldsMessage))
      else match ParseType(ts[1..])
        case Err(e) => Err(e)
        case Ok(t) => SuffixOfSuffix(t.rest, ts[1..], ts); Ok(Parsed(Some(t.value), t.rest))
    else Ok(Parsed(None, ts))
  }

  /** `-> Type` after the arguments of a `gen fn` item, or nothing. */
  function ArrowClause(ts: seq<Token>): (r: Result<Parsed<Option<Type>>>)
    ensures r.Ok? ==> IsSuffix(r.value.rest, ts)
  {
    if StartsWithArrow(ts) then
      match ParseType(ts[2..])
      case Err(e) => Err(e)
      case Ok(t) => SuffixOfSuffix(t.rest, ts[2..], ts); Ok(Parsed(Some(t.value), t.rest))
    else Ok(Parsed(None, ts))
  }

  /** Generics, the parenthesised arguments, the yield type (`yields` or
      `->` style) and the body, shared by the two custom grammars. */
  function SignatureRest(ts: seq<Token>, h: Header, arrow: bool, parseStmts: StmtParser): (o: ItemOutcome)
    ensures o.result.Ok? ==> o.result.value.value.Custom? && o.result.value.value.isAsync == h.isAsync
  {
    match ParseGenerics(ts)
    case Err(e) => FailedWith(e)
    case Ok(g) =>
      if !(|g.rest| > 0 && g.rest[0].Group? && g.rest[0].delimiter == Parenthesis) then Failed("expected parentheses")
      else
        var args := FnArgs(g.rest[0].stream);
        if args.result.Err? then ItemOutcome(Err(args.result.error), args.emitted)
        else
          var yieldClause := if arrow then ArrowClause(g.rest[1..]) else YieldsClause(g.rest[1..]);
          if yieldClause.Err? then ItemOutcome(Err(yieldClause.error), args.emitted)
          else match ParseBlock(yieldClause.value.rest, parseStmts)
            case Err(e) => ItemOutcome(Err(e), args.emitted)
            case Ok(b) =>
              ItemOutcome(Ok(Parsed(Custom(h.attributes, h.visibility, h.isAsync, h.name, g.value,
                                           args.result.value, yieldClause.value.value, b.value), b.rest)),
                          args.emitted)
  }

  /** `parse_fn_star`: `#[attrs] vis async? fn * name<generics>(args) yields Type { body }`. */
  function FnStarSpec(ts: seq<Token>, parseStmts: StmtParser): ItemOutcome {
    match ParseOuterAttributes(ts)
    case Err(e) => FailedWith(e)
    case Ok(a) =>
      match ParseVisibility(a.rest)
      case Err(e) => FailedWith(e)
      case Ok(v) =>
        var isAsync := StartsWithIdent(v.rest, "async");
        var afterAsync := if isAsync then v.rest[1..] else v.rest;
        if !StartsWithIdent(afterAsync, "fn") then Failed("expected `fn`")
        else if !StartsWithPunct(afterAsync[1..], '*') then Failed("expected `*`")
        else match ParseIdent(afterAsync[2..])
          case Err(e) => FailedWith(e)
          case Ok(n) => SignatureRest(n.rest, Header(a.value, v.value, isAsync, n.value), false, parseStmts)
  }

  /** `parse_gen_2996`: `#[attrs] vis gen ! fn name<generics>(args) -> Type { body }`,
      with `async_gen` in place of `gen` for streams. */
  function Gen2996Spec(ts: seq<Token>, parseStmts: StmtParser): ItemOutcome {
    match ParseOuterAttributes(ts)
    case Err(e) => FailedWith(e)
    case Ok(a) =>
      match ParseVisibility(a.rest)
      case Err(e) => FailedWith(e)
      case Ok(v) =>
        var kw := v.rest;
        if !(|kw| > 0 && IsPlainIdent(kw[0])) then Failed(GenKeywordMessage)
        else if kw[0].name != "gen" && kw[0].name != "async_gen" then Failed(GenKeywordMessage)
        else if !StartsWithPunct(kw[1..], '!') then Failed("expected `!`")
        else if !StartsWithIdent(kw[2..], "fn") then Failed("expected `fn`")
        else match ParseIdent(kw[3..])
          case Err(e) => FailedWith(e)
          case Ok(n) => SignatureRest(n.rest, Header(a.value, v.value, kw[0].name == "async_gen", n.value), true, parseStmts)
  }

  /** `parse_gen_blocks`: an ordinary function. */
  function GenBlocksSpec(ts: seq<Token>, parseStmts: StmtParser): (o: ItemOutcome)
    ensures o.emitted == []
    ensures o.result.Ok? ==> o.result.value.value.Ordinary?
  {
    match ParseItemFn(ts, parseStmts)
    case Err(e) => FailedWith(e)
    case Ok(f) => ItemOutcome(Ok(Parsed(Ordinary(f.value), f.rest)), [])
  }

  /** `IteratorItemParse::parse`: the first token selects the grammar and is
      consumed. */
  function ParseSpec(ts: seq<Token>, parseStmts: StmtParser): ItemOutcome {
    if StartsWithPunct(ts, '*') then FnStarSpec(ts[1..], parseStmts)
    else if StartsWithPunct(ts, '!') then Gen2996Spec(ts[1..], parseStmts)
    else if StartsWithPunct(ts, '#') then GenBlocksSpec(ts[1..], parseStmts)
    else Failed(NoSelectorMessage)
  }

  /** `parse_macro_input!`: the whole input must be one item. */
  function MacroInputOf(o: ItemOutcome): (r: (Result<ItemParse>, seq<Diagnostic>))
    ensures r.1 == o.emitted
    ensures r.0.Ok? <==> o.result.Ok? && o.result.value.rest == []
  {
    match o.result
    case Err(e) => (Err(e), o.emitted)
    case Ok(p) => if p.rest == [] then (Ok(p.value), o.emitted) else (Err(SynError("unexpected token")), o.emitted)
  }

  /** The same behind an unfolding guard, so that proofs about the whole
      pipeline do not unfold every grammar. */
  function MacroInputAfter(ts: seq<Token>, parseStmts: StmtParser, steps: nat): (Result<ItemParse>, seq<Diagnostic>)
    decreases steps
  {
    if steps == 0 then MacroInputOf(ParseSpec(ts, parseStmts)) else MacroInputAfter(ts, parseStmts, steps - 1)
  }

  function ParseMacroInput(ts: seq<Token>, parseStmts: StmtParser): (Result<ItemParse>, seq<Diagnostic>) {
    MacroInputAfter(ts, parseStmts, 2)
  }

  lemma ParseMacroInputMeans(ts: seq<Token>, parseStmts: StmtParser)
    ensures ParseMacroInput(ts, parseStmts) == MacroInputOf(ParseSpec(ts, parseStmts))
  {
    assert MacroInputAfter(ts, parseStmts, 2) == MacroInputAfter(ts, parseStmts, 1) == MacroInputAfter(ts, parseStmts, 0);
  }

  /** The method's outcome is the one the specification function gives. */
  predicate Agrees(o: ItemOutcome, r: Result<ItemParse>, emitted: seq<Diagnostic>, rest: seq<Token>) {
    && emitted == o.emitted
    && r.Ok? == o.result.Ok?
    && (r.Ok? ==> r.value == o.result.value.value && rest == o.result.value.rest)
    && (r.Err? ==> r.error == o.result.error)
  }

  method CheckFnStar(input: ParseStream) returns (b: bool)
    modifies input
    ensures b <==> StartsWithPunct(old(input.rest), '*')
    ensures input.rest == if b then old(input.rest)[1..] else old(input.rest)
  {
    b := StartsWithPunct(input.rest, '*');
    if b {
      input.rest := input.rest[1..];
    }
  }

  method CheckGen2996(input: ParseStream) returns (b: bool)
    modifies input
    ensures b <==> StartsWithPunct(old(input.rest), '!')
    ensures input.rest == if b then old(input.rest)[1..] else old(input.rest)
  {
    b := StartsWithPunct(input.rest, '!');
    if b {
      input.rest := input.rest[1..];
    }
  }

  method CheckGenBlocks(input: ParseStream) returns (b: bool)
    modifies input
    ensures b <==> StartsWithPunct(old(input.rest), '#')
    ensures input.rest == if b then old(input.rest)[1..] else old(input.rest)
  {
    b := StartsWithPunct(input.rest, '#');
    if b {
      input.rest := input.rest[1..];
    }
  }

  method ParseSignatureRest(input: ParseStream, h: Header, arrow: bool, parseStmts: StmtParser)
    returns (r: Result<ItemParse>, emitted: seq<Diagnostic>)
    modifies input
    ensures Agrees(SignatureRest(old(input.rest), h, arrow, parseStmts), r, emitted, input.rest)
  {
    emitted := [];
    var generics := ParseGenerics(input.rest);
    if generics.Err? {
      return Err(generics.error), emitted;
    }
    input.rest := generics.value.rest;
    if !(|input.rest| > 0 && input.rest[0].Group? && input.rest[0].delimiter == Parenthesis) {
      return Err(SynError("expected parentheses")), emitted;
    }
    var fnArgs := new ParseStream(input.rest[0].stream);
    input.rest := input.rest[1..];
    var args;
    args, emitted := ParseFnArgs(fnArgs);
    if args.Err? {
      return Err(args.error), emitted;
    }
    var yieldClause := if arrow then ArrowClause(input.rest) else YieldsClause(input.rest);
    if yieldClause.Err? {
      return Err(yieldClause.error), emitted;
    }
    input.rest := yieldClause.value.rest;
    var body := ParseBlock(input.rest, parseStmts);
    if body.Err? {
      return Err(body.error), emitted;
    }
    input.rest := body.value.rest;
    r := Ok(Custom(h.attributes, h.visibility, h.isAsync, h.name, generics.value.value, args.value, yieldClause.value.value, body.value.value));
  }

  method ParseFnStar(input: ParseStream, parseStmts: StmtParser) returns (r: Result<ItemParse>, emitted: seq<Diagnostic>)
    modifies input
    ensures Agrees(FnStarSpec(old(input.rest), parseStmts), r, emitted, input.rest)
  {
    emitted := [];
    var attributes := ParseOuterAttributes(input.rest);
    if attributes.Err? {
      return Err(attributes.error), emitted;
    }
    input.rest := attributes.value.rest;
    var visibility := ParseVisibility(input.rest);
    if visibility.Err? {
      return Err(visibility.error), emitted;
    }
    input.rest := visibility.value.rest;
    var isAsync := StartsWithIdent(input.rest, "async");
    if isAsync {
      input.rest := input.rest[1..];
    }
    if !StartsWithIdent(input.rest, "fn") {
      return Err(SynError("expected `fn`")), emitted;
    }
    input.rest := input.rest[1..];
    if !StartsWithPunct(input.rest, '*') {
      return Err(SynError("expected `*`")), emitted;
    }
    input.rest := input.rest[1..];
    var name := ParseIdent(input.rest);
    if name.Err? {
      return Err(name.error), emitted;
    }
    input.rest := name.value.rest;
    r, emitted := ParseSignatureRest(input, Header(attributes.value.value, visibility.value.value, isAsync, name.value.value), false, parseStmts);
  }

  method ParseGen2996(input: ParseStream, parseStmts: StmtParser) returns (r: Result<ItemParse>, emitted: seq<Diagnostic>)
    modifies input
    ensures Agrees(Gen2996Spec(old(input.rest), parseStmts), r, emitted, input.rest)
  {
    emitted := [];
    var attributes := ParseOuterAttributes(input.rest);
    if attributes.Err? {
      return Err(attributes.error), emitted;
    }
    input.rest := attributes.value.rest;
    var visibility := ParseVisibility(input.rest);
    if visibility.Err? {
      return Err(visibility.error), emitted;
    }
    input.rest := visibility.value.rest;
    // `gen` is not a keyword, so it arrives as an identifier.
    if !(|input.rest| > 0 && IsPlainIdent(input.rest[0])) {
      return Err(SynError(GenKeywordMessage)), emitted;
    }
    var gen := input.rest[0].name;
    var isAsync := gen == "async_gen";
    if gen != "gen" && gen != "async_gen" {
      return Err(SynError(GenKeywordMessage)), emitted;
    }
    input.rest := input.rest[1..];
    if !StartsWithPunct(input.rest, '!') {
      return Err(SynError("expected `!`")), emitted;
    }
    input.rest := input.rest[1..];
    if !StartsWithIdent(input.rest, "fn") {
      return Err(SynError("expected `fn`")), emitted;
    }
    input.rest := input.rest[1..];
    var name := ParseIdent(input.rest);
    if name.Err? {
      return Err(name.error), emitted;
    }
    input.rest := name.value.rest;
    r, emitted := ParseSignatureRest(input, Header(attributes.value.value, visibility.value.value, isAsync, name.value.value), true, parseStmts);
  }

  method ParseGenBlocks(input: ParseStream, parseStmts: StmtParser) returns (r: Result<ItemParse>, emitted: seq<Diagnostic>)
    modifies input
    ensures Agrees(GenBlocksSpec(old(input.rest), parseStmts), r, emitted, input.rest)
  {
    emitted := [];
    var parsed := ParseItemFn(input.rest, parseStmts);
    if parsed.Err? {
      return Err(parsed.error), emitted;
    }
    input.rest := parsed.value.rest;
    r := Ok(Ordinary(parsed.value.value));
  }

  /** `IteratorItemParse::parse`. */
  method Parse(input: ParseStream, parseStmts: StmtParser) returns (r: Result<ItemParse>, emitted: seq<Diagnostic>)
    modifies input
    ensures Agrees(ParseSpec(old(input.rest), parseStmts), r, emitted, input.rest)
  {
    var b := CheckFnStar(input);
    if b {
      r, emitted := ParseFnStar(input, parseStmts);
      return;
    }
    b := CheckGen2996(input);
    if b {
      r, emitted := ParseGen2996(input, parseStmts);
      return;
    }
    b := CheckGenBlocks(input);
    if b {
      r, emitted := ParseGenBlocks(input, parseStmts);
      return;
    }
    r, emitted := Err(SynError(NoSelectorMessage)), [];
  }

  // ---------------------------------------------------------------------
  // Printing simple items back to tokens. Parsing the printed form gives
  // back the item: the partner of every grammar above.

  predicate WfPath(p: seq<string>) {
    p != [] && forall i :: 0 <= i < |p| ==> IsPathSegmentIdent(Ident(p[i], 0))
  }

  function PrintPath(p: seq<string>): (ts: seq<Token>)
    requires p != []
    ensures ts != [] && ts[0] == Ident(p[0], 0)
    decreases |p|
  {
    if |p| == 1 then [Ident(p[0], 0)]
    else [Ident(p[0], 0), Punct(':'), Punct(':')] + PrintPath(p[1..])
  }

  predicate WfAttribute(a: Attribute) {
    WfPath(a.path) && !StartsWithPathSep(a.tokens)
  }

  function PrintAttribute(a: Attribute): seq<Token>
    requires a.path != []
  {
    [Punct('#'), Group(Bracket, PrintPath(a.path) + a.tokens)]
  }

  predicate WfAttributes(attrs: seq<Attribute>) {
    forall i :: 0 <= i < |attrs| ==> WfAttribute(attrs[i])
  }

  function PrintAttributes(attrs: seq<Attribute>): seq<Token>
    requires WfAttributes(attrs)
  {
    if attrs == [] then [] else PrintAttribute(attrs[0]) + PrintAttributes(attrs[1..])
  }

  /** `()` or a single identifier naming a type. */
  predicate SimpleType(t: Type) {
    || t == Tuple([])
    || (t.Path? && !t.qself && !t.leadingColon && |t.segments| == 1
        && t.segments[0].arguments == [] && IsPlainIdent(Ident(t.segments[0].ident, 0)))
  }

  function PrintSimpleType(t: Type): seq<Token>
    requires SimpleType(t)
  {
    if t.Tuple? then [Group(Parenthesis, [])] else [Ident(t.segments[0].ident, 0)]
  }

  /** Tokens that end a type instead of continuing its path. */
  predicate EndsType(rest: seq<Token>) {
    !StartsWithPunct(rest, '<') && !StartsWithPathSep(rest)
  }

  /** A receiver (a lifetime only on a reference), or `name: Type`. */
  predicate WfArg(a: FnArg) {
    && WfAttributes(a.attrs)
    && (if a.Receiver? then a.reference || a.lifetime.None?
        else |a.pat| == 1 && IsPlainIdent(a.pat[0]) && SimpleType(a.ty))
  }

  function PrintArgBody(a: FnArg): (ts: seq<Token>)
    requires WfArg(a)
    ensures ts != [] && (ts[0].Ident? || ts[0] == Punct('&'))
  {
    match a
    case Receiver(_, reference, lifetime, mutable) =>
      (if reference then [Punct('&')] else [])
      + (if lifetime.Some? then [Punct('\''), Ident(lifetime.value, 0)] else [])
      + (if mutable then [Ident("mut", 0)] else [])
      + [Ident("self", 0)]
    case Typed(_, pat, ty) => pat + [Punct(':')] + PrintSimpleType(ty)
  }

  function PrintArg(a: FnArg): seq<Token>
    requires WfArg(a)
  {
    PrintAttributes(a.attrs) + PrintArgBody(a)
  }

  function PrintArgList(args: seq<FnArg>): seq<Token>
    requires forall i :: 0 <= i < |args| ==> WfArg(args[i])
  {
    if args == [] then []
    else if |args| == 1 then PrintArg(args[0])
    else PrintArg(args[0]) + [Punct(',')] + PrintArgList(args[1..])
  }

  /** Well-formed argument lists: a receiver only in first position. */
  predicate WfArgs(args: seq<FnArg>) {
    && (forall i :: 0 <= i < |args| ==> WfArg(args[i]))
    && (forall i :: 0 < i < |args| ==> !args[i].Receiver?)
  }

  lemma {:induction false} ModPathRoundTrip(p: seq<string>, tokens: seq<Token>)
    requires WfPath(p) && !StartsWithPathSep(tokens)
    ensures ModPath(PrintPath(p) + tokens) == Ok(Parsed(p, tokens))
    decreases |p|
  {
    if |p| == 1 {
      ModPathLast(p, tokens);
    } else {
      ModPathRoundTrip(p[1..], tokens);
      ModPathCons(p, tokens);
    }
  }

  lemma ModPathLast(p: seq<string>, tokens: seq<Token>)
    requires |p| == 1 && WfPath(p) && !StartsWithPathSep(tokens)
    ensures ModPath(PrintPath(p) + tokens) == Ok(Parsed(p, tokens))
  {
    var ts := PrintPath(p) + tokens;
    assert IsPathSegmentIdent(ts[0]) by { assert ts[0] == Ident(p[0], 0); }
    DropPrefix([Ident(p[0], 0)], tokens);
    assert [p[0]] == p;
  }

  lemma ModPathCons(p: seq<string>, tokens: seq<Token>)
    requires |p| > 1 && WfPath(p)
    requires ModPath(PrintPath(p[1..]) + tokens) == Ok(Parsed(p[1..], tokens))
    ensures ModPath(PrintPath(p) + tokens) == Ok(Parsed(p, tokens))
  {
    var ts := PrintPath(p) + tokens;
    assert IsPathSegmentIdent(ts[0]) by { assert ts[0] == Ident(p[0], 0); }
    var head := [Ident(p[0], 0), Punct(':'), Punct(':')];
    AppendAssoc3(head, PrintPath(p[1..]), tokens);
    DropPrefix(head, PrintPath(p[1..]) + tokens);
    assert ts[3] == Ident(p[1], 0);
    assert [p[0]] + p[1..] == p;
  }

  lemma AttributeRoundTrip(a: Attribute, after: seq<Token>)
    requires WfAttribute(a)
    ensures ParseAttribute(PrintAttribute(a) + after) == Ok(Parsed(a, after))
  {
    var ts := PrintAttribute(a) + after;
    assert ts[1] == Group(Bracket, PrintPath(a.path) + a.tokens);
    ModPathRoundTrip(a.path, a.tokens);
    assert ts[2..] == after;
  }

  lemma {:induction false} AttributesRoundTrip(attrs: seq<Attribute>, rest: seq<Token>)
    requires WfAttributes(attrs) && !StartsWithPunct(rest, '#')
    ensures ParseOuterAttributes(PrintAttributes(attrs) + rest) == Ok(Parsed(attrs, rest))
    decreases |attrs|
  {
    if attrs != [] {
      var a := attrs[0];
      var after := PrintAttributes(attrs[1..]) + rest;
      AppendAssoc3(PrintAttribute(a), PrintAttributes(attrs[1..]), rest);
      AttributeRoundTrip(a, after);
      AttributesRoundTrip(attrs[1..], rest);
      assert [a] + attrs[1..] == attrs;
    }
  }

  lemma SimpleTypeRoundTrip(t: Type, rest: seq<Token>)
    requires SimpleType(t) && EndsType(rest)
    ensures ParseType(PrintSimpleType(t) + rest) == Ok(Parsed(t, rest))
  {
    var ts := PrintSimpleType(t) + rest;
    assert ts[1..] == rest;
    if t.Path? {
      assert t.segments == [PathSegment(t.segments[0].ident, [])];
      assert ParsePathSegments(ts) == Ok(Parsed(t.segments, rest));
    }
  }

  lemma ArgBodyRoundTrip(a: FnArg, rest: seq<Token>)
    requires WfArg(a) && (rest == [] || rest[0] == Punct(','))
    ensures ParseFnArg(PrintArgBody(a) + rest, a.attrs) == Ok(Parsed(a, rest))
  {
    if a.Receiver? {
      ReceiverRoundTrip(a, rest);
    } else {
      TypedArgRoundTrip(a, rest);
    }
  }

  lemma ReceiverRoundTrip(a: FnArg, rest: seq<Token>)
    requires a.Receiver? && WfArg(a) && (rest == [] || rest[0] == Punct(','))
    ensures ParseReceiver(PrintArgBody(a) + rest, a.attrs) == Some(Parsed(a, rest))
  {
    var ts := PrintArgBody(a) + rest;
    var k1 := if a.reference then 1 else 0;
    var k2 := if a.lifetime.Some? then 3 else k1;
    var k3 := if a.mutable then k2 + 1 else k2;
    assert ts[k3] == Ident("self", 0);
    assert ts[k3 + 1..] == rest;
    if a.reference {
      assert ts[0] == Punct('&');
    } else {
      assert !StartsWithPunct(ts, '&');
    }
    if a.lifetime.Some? {
      assert ts[1] == Punct('\'') && ts[2] == Ident(a.lifetime.value, 0);
    } else if a.reference {
      assert ts[1] != Punct('\'');
    }
    if a.mutable {
      assert ts[k2] == Ident("mut", 0);
    } else {
      assert ts[k2] == Ident("self", 0);
    }
  }

  lemma TypedArgRoundTrip(a: FnArg, rest: seq<Token>)
    requires a.Typed? && WfArg(a) && (rest == [] || rest[0] == Punct(','))
    ensures ParseFnArg(PrintArgBody(a) + rest, a.attrs) == Ok(Parsed(a, rest))
  {
    var ts := PrintArgBody(a) + rest;
    assert ts[0] == a.pat[0];
    assert ParseReceiver(ts, a.attrs).None?;
    assert ts[..1] == a.pat;
    assert ts[1..] == [Punct(':')] + (PrintSimpleType(a.ty) + rest);
    assert ts[1..][1..] == PrintSimpleType(a.ty) + rest;
    SimpleTypeRoundTrip(a.ty, rest);
  }

  /** One accepted argument of the argument-list parser. */
  lemma FnArgsStep(ts: seq<Token>, args: seq<FnArg>, hasReceiver: bool,
                   attrs: seq<Attribute>, rest: seq<Token>, arg: FnArg, after: seq<Token>)
    requires ts != [] && ParseOuterAttributes(ts) == Ok(Parsed(attrs, rest)) && !StartsWithDots(rest)
    requires ParseFnArg(rest, attrs) == Ok(Parsed(arg, after))
    requires !(arg.Receiver? && hasReceiver) && !(arg.Receiver? && args != [])
    ensures NextArg(ts, args, hasReceiver)
         == if after == [] then Last(arg)
            else if after[0] != Punct(',') then Stop(SynError("expected `,`"))
            else Accept(arg, after[1..])
  {
    NextArgMeans(ts, args, hasReceiver);
  }

  /** One refused receiver. */
  lemma FnArgsReceiverStep(ts: seq<Token>, args: seq<FnArg>, hasReceiver: bool,
                           attrs: seq<Attribute>, rest: seq<Token>, arg: FnArg, after: seq<Token>)
    requires ts != [] && ParseOuterAttributes(ts) == Ok(Parsed(attrs, rest)) && !StartsWithDots(rest)
    requires ParseFnArg(rest, attrs) == Ok(Parsed(arg, after))
    requires arg.Receiver? && (hasReceiver || args != [])
    ensures NextArg(ts, args, hasReceiver)
         == Stop(SynError(if hasReceiver then "unexpected second method receiver" else "unexpected method receiver"))
  {
    NextArgMeans(ts, args, hasReceiver);
  }

  lemma PrintArgListUnfold(args: seq<FnArg>, tail: seq<Token>)
    requires args != [] && WfArgs(args)
    ensures PrintArgList(args) + tail
         == PrintAttributes(args[0].attrs) + (PrintArgBody(args[0]) + (if |args| == 1 then tail else [Punct(',')] + (PrintArgList(args[1..]) + tail)))
  {
    if |args| == 1 {
      PrintOneArg(args, tail);
    } else {
      PrintArgsCons(args, tail);
    }
  }

  lemma PrintOneArg(args: seq<FnArg>, tail: seq<Token>)
    requires |args| == 1 && WfArgs(args)
    ensures PrintArgList(args) + tail == PrintAttributes(args[0].attrs) + (PrintArgBody(args[0]) + tail)
  {
    AppendAssoc3(PrintAttributes(args[0].attrs), PrintArgBody(args[0]), tail);
  }

  lemma PrintArgsCons(args: seq<FnArg>, tail: seq<Token>)
    requires |args| > 1 && WfArgs(args)
    ensures PrintArgList(args) + tail
         == PrintAttributes(args[0].attrs) + (PrintArgBody(args[0]) + ([Punct(',')] + (PrintArgList(args[1..]) + tail)))
  {
    AppendAssoc(PrintAttributes(args[0].attrs), PrintArgBody(args[0]), [Punct(',')], PrintArgList(args[1..]), tail);
  }

  /** The loop reads a printed argument back in one turn. */
  lemma PrintedArgStep(a: FnArg, after: seq<Token>, acc: seq<FnArg>, hasReceiver: bool)
    requires WfArg(a) && (after == [] || after[0] == Punct(','))
    requires a.Receiver? ==> acc == [] && !hasReceiver
    ensures NextArg(PrintAttributes(a.attrs) + (PrintArgBody(a) + after), acc, hasReceiver)
         == if after == [] then Last(a) else Accept(a, after[1..])
  {
    var ts := PrintAttributes(a.attrs) + (PrintArgBody(a) + after);
    AttributesRoundTrip(a.attrs, PrintArgBody(a) + after);
    ArgBodyRoundTrip(a, after);
    FnArgsStep(ts, acc, hasReceiver, a.attrs, PrintArgBody(a) + after, a, after);
  }

  /** The first turn over a printed argument list. */
  lemma ArgListFirstTurn(args: seq<FnArg>, tail: seq<Token>, acc: seq<FnArg>, hasReceiver: bool)
    requires args != [] && WfArgs(args)
    requires args[0].Receiver? ==> acc == [] && !hasReceiver
    requires tail == [] || tail[0] == Punct(',')
    ensures FnArgsFrom(PrintArgList(args) + tail, acc, hasReceiver)
         == if |args| > 1 then FnArgsFrom(PrintArgList(args[1..]) + tail, acc + [args[0]], hasReceiver || args[0].Receiver?)
            else if tail == [] then ArgsOutcome(Ok(acc + [args[0]]), [])
            else FnArgsFrom(tail[1..], acc + [args[0]], hasReceiver || args[0].Receiver?)
  {
    var a := args[0];
    var after := if |args| == 1 then tail else [Punct(',')] + (PrintArgList(args[1..]) + tail);
    var ts := PrintAttributes(a.attrs) + (PrintArgBody(a) + after);
    PrintArgListUnfold(args, tail);
    assert PrintArgList(args) + tail == ts;
    PrintedArgStep(a, after, acc, hasReceiver);
    if after == [] {
      FnArgsFromLast(ts, acc, hasReceiver, a);
    } else {
      FnArgsFromAccept(ts, acc, hasReceiver, a, after[1..]);
      if |args| > 1 {
        assert after[1..] == PrintArgList(args[1..]) + tail;
      }
    }
  }

  lemma FnArgsFromAccept(ts: seq<Token>, acc: seq<FnArg>, hasReceiver: bool, arg: FnArg, after: seq<Token>)
    requires ts != [] && NextArg(ts, acc, hasReceiver) == Accept(arg, after)
    ensures FnArgsFrom(ts, acc, hasReceiver) == FnArgsFrom(after, acc + [arg], hasReceiver || arg.Receiver?)
  {
  }

  lemma FnArgsFromLast(ts: seq<Token>, acc: seq<FnArg>, hasReceiver: bool, arg: FnArg)
    requires ts != [] && NextArg(ts, acc, hasReceiver) == Last(arg)
    ensures FnArgsFrom(ts, acc, hasReceiver) == ArgsOutcome(Ok(acc + [arg]), [])
  {
  }

  lemma {:induction false} ArgListRoundTrip(args: seq<FnArg>, tail: seq<Token>, acc: seq<FnArg>, hasReceiver: bool)
    requires args != [] && WfArgs(args)
    requires args[0].Receiver? ==> acc == [] && !hasReceiver
    requires tail == [] || tail[0] == Punct(',')
    ensures FnArgsFrom(PrintArgList(args) + tail, acc, hasReceiver)
         == if tail == [] then ArgsOutcome(Ok(acc + args), [])
            else FnArgsFrom(tail[1..], acc + args, hasReceiver || args[0].Receiver?)
    decreases |args|
  {
    ArgListFirstTurn(args, tail, acc, hasReceiver);
    var a, more := args[0], args[1..];
    var h := hasReceiver || a.Receiver?;
    if more != [] {
      assert WfArgs(more) && !more[0].Receiver?;
      ArgListRoundTrip(more, tail, acc + [a], h);
      ConsAppend(acc, args);
    } else {
      assert args == [a];
    }
  }

  /** Printed argument lists, with or without a trailing comma, parse back
      to the same arguments and emit nothing. */
  lemma FnArgsRoundTrip(args: seq<FnArg>, trailingComma: bool)
    requires WfArgs(args)
    ensures FnArgs(PrintArgList(args) + (if trailingComma && args != [] then [Punct(',')] else []))
         == ArgsOutcome(Ok(args), [])
  {
    if args != [] {
      assert [] + args == args;
      if trailingComma {
        ArgListRoundTrip(args, [Punct(',')], [], false);
        assert [Punct(',')][1..] == [];
      } else {
        ArgListRoundTrip(args, [], [], false);
      }
    }
  }

  /** A trailing `...` emits the variadic diagnostic and adds no argument. */
  lemma VariadicDropped(args: seq<FnArg>)
    requires args != [] && WfArgs(args)
    ensures FnArgs(PrintArgList(args) + [Punct(','), Punct('.'), Punct('.'), Punct('.')])
         == ArgsOutcome(Ok(args), [VariadicDiagnostic])
  {
    var tail := [Punct(','), Punct('.'), Punct('.'), Punct('.')];
    ArgListRoundTrip(args, tail, [], false);
    var dots := tail[1..];
    assert ParseOuterAttributes(dots) == Ok(Parsed([], dots));
    assert dots[3..] == [];
    assert [] + args == args;
    assert FnArgsFrom(dots, args, args[0].Receiver?) == ArgsOutcome(Ok(args), [VariadicDiagnostic]);
  }

  /** A receiver after any argument is refused, and so is a second one. */
  lemma LateReceiverRejected(args: seq<FnArg>, receiver: FnArg)
    requires args != [] && WfArgs(args)
    requires receiver.Receiver? && WfArg(receiver)
    ensures FnArgs(PrintArgList(args) + [Punct(',')] + PrintArg(receiver))
         == ArgsOutcome(Err(SynError(if args[0].Receiver? then "unexpected second method receiver"
                                     else "unexpected method receiver")), [])
  {
    var tail := [Punct(',')] + PrintArg(receiver);
    ArgListRoundTrip(args, tail, [], false);
    AppendAssoc3(PrintArgList(args), [Punct(',')], PrintArg(receiver));
    DropFirst(Punct(','), PrintArg(receiver));
    assert [] + args == args;
    PrintedReceiverRefused(receiver, args, args[0].Receiver?);
  }

  /** The loop refuses a printed receiver once any argument was read. */
  lemma PrintedReceiverRefused(receiver: FnArg, args: seq<FnArg>, hasReceiver: bool)
    requires receiver.Receiver? && WfArg(receiver) && (args != [] || hasReceiver)
    ensures FnArgsFrom(PrintArg(receiver), args, hasReceiver)
         == ArgsOutcome(Err(SynError(if hasReceiver then "unexpected second method receiver"
                                     else "unexpected method receiver")), [])
  {
    var ts := PrintArg(receiver);
    assert PrintArgBody(receiver) + [] == PrintArgBody(receiver);
    AttributesRoundTrip(receiver.attrs, PrintArgBody(receiver) + []);
    ArgBodyRoundTrip(receiver, []);
    FnArgsReceiverStep(ts, args, hasReceiver, receiver.attrs, PrintArgBody(receiver) + [], receiver, []);
  }

  /** A receiver, if any, only in first position. */
  predicate ReceiverFirst(args: seq<FnArg>) {
    forall i :: 0 < i < |args| ==> !args[i].Receiver?
  }

  lemma ReceiverFirstAppend(args: seq<FnArg>, arg: FnArg)
    requires ReceiverFirst(args) && (arg.Receiver? ==> args == [])
    ensures ReceiverFirst(args + [arg])
  {
    var next := args + [arg];
    forall i | 0 < i < |next|
      ensures !next[i].Receiver?
    {
      if i < |args| {
        assert next[i] == args[i];
      }
    }
  }

  /** Whatever the tokens, an accepted argument list has its receiver, if
      any, in first position only. */
  lemma {:induction false} ReceiversComeFirst(ts: seq<Token>, args: seq<FnArg>, hasReceiver: bool)
    requires ReceiverFirst(args)
    requires hasReceiver <==> (args != [] && args[0].Receiver?)
    ensures FnArgsFrom(ts, args, hasReceiver).result.Ok? ==> ReceiverFirst(FnArgsFrom(ts, args, hasReceiver).result.value)
    decreases |ts|
  {
    if ts != [] {
      match NextArg(ts, args, hasReceiver)
      case Stop(_) =>
      case Last(arg) =>
        ReceiverFirstAppend(args, arg);
      case SkipVariadic(after) =>
        ReceiversComeFirst(after, args, hasReceiver);
      case Accept(arg, after) =>
        ReceiverFirstAppend(args, arg);
        ReceiversComeFirst(after, args + [arg], hasReceiver || arg.Receiver?);
    }
  }

  /** The only diagnostic the argument parser emits is the variadic one. */
  lemma {:induction false} OnlyVariadicDiagnostics(ts: seq<Token>, args: seq<FnArg>, hasReceiver: bool)
    ensures forall i :: 0 <= i < |FnArgsFrom(ts, args, hasReceiver).emitted| ==>
              FnArgsFrom(ts, args, hasReceiver).emitted[i] == VariadicDiagnostic
    decreases |ts|
  {
    if ts != [] {
      match NextArg(ts, args, hasReceiver)
      case Stop(_) =>
      case Last(_) =>
      case SkipVariadic(after) =>
        OnlyVariadicDiagnostics(after, args, hasReceiver);
      case Accept(arg, after) =>
        OnlyVariadicDiagnostics(after, args + [arg], hasReceiver || arg.Receiver?);
    }
  }

  // ---------------------------------------------------------------------
  // Printing whole custom items in either surface syntax.

  /** Custom items with a plain name, no generics, `pub` or inherited
      visibility, printable arguments and a printable yield type. */
  predicate WfCustom(item: ItemParse) {
    && item.Custom?
    && WfAttributes(item.attributes)
    && (item.visibility == Inherited || item.visibility == Public)
    && IsPlainIdent(Ident(item.name, 0))
    && item.generics == Generics([])
    && WfArgs(item.args)
    && (item.yieldType.Some? ==> SimpleType(item.yieldType.value))
  }

  function PrintVisibility(v: Visibility): seq<Token> {
    if v == Public then [Ident("pub", 0)] else []
  }

  /** `yields Type` or `-> Type`, or nothing without a yield type. */
  function PrintYieldClause(yieldType: Option<Type>, arrow: bool): seq<Token>
    requires yieldType.Some? ==> SimpleType(yieldType.value)
  {
    if yieldType.None? then []
    else (if arrow then [Punct('-'), Punct('>')] else [Ident("yields", 0)]) + PrintSimpleType(yieldType.value)
  }

  /** `(args) <yield clause> { body }`, where `body` is what the statement
      parser reads the item's statements from. */
  function PrintSignatureRest(item: ItemParse, arrow: bool, body: seq<Token>): seq<Token>
    requires WfCustom(item)
  {
    [Group(Parenthesis, PrintArgList(item.args))] + (PrintYieldClause(item.yieldType, arrow) + [Group(Brace, body)])
  }

  /** `#[attrs] vis async? fn * name(args) yields Type { body }` */
  function PrintFnStar(item: ItemParse, body: seq<Token>): seq<Token>
    requires WfCustom(item)
  {
    PrintAttributes(item.attributes)
      + (PrintVisibility(item.visibility)
      + ((if item.isAsync then [Ident("async", 0)] else [])
      + ([Ident("fn", 0), Punct('*'), Ident(item.name, 0)] + PrintSignatureRest(item, false, body))))
  }

  /** `#[attrs] vis gen ! fn name(args) -> Type { body }`, `async_gen` for streams. */
  function PrintGen2996(item: ItemParse, body: seq<Token>): seq<Token>
    requires WfCustom(item)
  {
    PrintAttributes(item.attributes)
      + (PrintVisibility(item.visibility)
      + ([Ident(if item.isAsync then "async_gen" else "gen", 0), Punct('!'), Ident("fn", 0), Ident(item.name, 0)]
      + PrintSignatureRest(item, true, body)))
  }

  lemma YieldClauseRoundTrip(yieldType: Option<Type>, arrow: bool, rest: seq<Token>)
    requires yieldType.Some? ==> SimpleType(yieldType.value)
    requires rest != [] && rest[0].Group? && rest[0].delimiter == Brace
    ensures var ts := PrintYieldClause(yieldType, arrow) + rest;
            (if arrow then ArrowClause(ts) else YieldsClause(ts)) == Ok(Parsed(yieldType, rest))
  {
    var ts := PrintYieldClause(yieldType, arrow) + rest;
    if yieldType.Some? {
      var t := yieldType.value;
      var lead := if arrow then [Punct('-'), Punct('>')] else [Ident("yields", 0)];
      AppendAssoc3(lead, PrintSimpleType(t), rest);
      DropPrefix(lead, PrintSimpleType(t) + rest);
      SimpleTypeRoundTrip(t, rest);
      if !arrow {
        ContextualWords();
      }
    } else {
      assert ts == rest;
    }
  }

  /** The shared tail of both grammars reads a printed signature back. */
  lemma SignatureRestRoundTrip(item: ItemParse, arrow: bool, body: seq<Token>, h: Header, parseStmts: StmtParser)
    requires WfCustom(item) && parseStmts(body).Ok?
    requires h == Header(item.attributes, item.visibility, item.isAsync, item.name)
    ensures SignatureRest(PrintSignatureRest(item, arrow, body), h, arrow, parseStmts)
         == ItemOutcome(Ok(Parsed(item.(body := parseStmts(body).value), [])), [])
  {
    var ts := PrintSignatureRest(item, arrow, body);
    var after := PrintYieldClause(item.yieldType, arrow) + [Group(Brace, body)];
    assert ParseGenerics(ts) == Ok(Parsed(Generics([]), ts));
    DropFirst(Group(Parenthesis, PrintArgList(item.args)), after);
    assert ts[1..] == after;
    FnArgsRoundTrip(item.args, false);
    assert PrintArgList(item.args) + [] == PrintArgList(item.args);
    assert FnArgs(ts[0].stream) == ArgsOutcome(Ok(item.args), []);
    YieldClauseRoundTrip(item.yieldType, arrow, [Group(Brace, body)]);
    var yieldClause := if arrow then ArrowClause(ts[1..]) else YieldsClause(ts[1..]);
    assert yieldClause == Ok(Parsed(item.yieldType, [Group(Brace, body)]));
    var block := [Group(Brace, body)];
    assert block[0].stream == body && block[1..] == [];
    assert ParseBlock(block, parseStmts) == Ok(Parsed(parseStmts(body).value, []));
  }

  /** After the attributes: the visibility is read back and the rest follows. */
  lemma VisibilityRoundTrip(v: Visibility, rest: seq<Token>)
    requires v == Inherited || v == Public
    requires rest != [] && rest[0].Ident? && rest[0].name != "pub" && rest[0].name != "crate"
    ensures ParseVisibility(PrintVisibility(v) + rest) == Ok(Parsed(v, rest))
  {
    if v == Public {
      DropFirst(Ident("pub", 0), rest);
    } else {
      assert PrintVisibility(v) + rest == rest;
    }
  }

  /** A printed `fn*` item, after its selector, parses back to itself
      (with the statements the statement parser reads from its body). */
  lemma FnStarRoundTrip(item: ItemParse, body: seq<Token>, parseStmts: StmtParser)
    requires WfCustom(item) && parseStmts(body).Ok?
    ensures FnStarSpec(PrintFnStar(item, body), parseStmts)
         == ItemOutcome(Ok(Parsed(item.(body := parseStmts(body).value), [])), [])
  {
    var sig := PrintSignatureRest(item, false, body);
    var lead := [Ident("fn", 0), Punct('*'), Ident(item.name, 0)];
    var named := lead + sig;
    var afterVis := (if item.isAsync then [Ident("async", 0)] else []) + named;
    var afterAttrs := PrintVisibility(item.visibility) + afterVis;
    assert PrintFnStar(item, body) == PrintAttributes(item.attributes) + afterAttrs;
    AttributesRoundTrip(item.attributes, afterAttrs);
    VisibilityRoundTrip(item.visibility, afterVis);
    if item.isAsync {
      DropFirst(Ident("async", 0), named);
    } else {
      EmptyAppend(named);
    }
    var afterAsync := if StartsWithIdent(afterVis, "async") then afterVis[1..] else afterVis;
    assert afterAsync == named;
    SliceOfAppend(lead, sig, 1);
    SliceOfAppend(lead, sig, 2);
    assert lead[1..] == [Punct('*'), Ident(item.name, 0)];
    assert lead[2..] == [Ident(item.name, 0)];
    DropFirst(Ident(item.name, 0), sig);
    assert StartsWithIdent(named, "fn") && StartsWithPunct(named[1..], '*');
    assert ParseIdent(named[2..]) == Ok(Parsed(item.name, sig));
    var h := Header(item.attributes, item.visibility, item.isAsync, item.name);
    SignatureRestRoundTrip(item, false, body, h, parseStmts);
  }

  /** A printed `gen!` item, after its selector, parses back to itself;
      `async_gen` marks exactly the streams. */
  /** The keyword, `!`, `fn` and the name, read back from a printed item. */
  lemma GenLeadRoundTrip(item: ItemParse, sig: seq<Token>)
    requires WfCustom(item)
    ensures var kw := if item.isAsync then "async_gen" else "gen";
            var afterVis := [Ident(kw, 0), Punct('!'), Ident("fn", 0), Ident(item.name, 0)] + sig;
            && IsPlainIdent(afterVis[0]) && afterVis[0].name == kw
            && (kw == "async_gen") == item.isAsync
            && StartsWithPunct(afterVis[1..], '!') && StartsWithIdent(afterVis[2..], "fn")
            && ParseIdent(afterVis[3..]) == Ok(Parsed(item.name, sig))
  {
    var kw := if item.isAsync then "async_gen" else "gen";
    var lead := [Ident(kw, 0), Punct('!'), Ident("fn", 0), Ident(item.name, 0)];
    var afterVis := lead + sig;
    ContextualWords();
    SliceOfAppend(lead, sig, 1);
    SliceOfAppend(lead, sig, 2);
    SliceOfAppend(lead, sig, 3);
    assert lead[1..] == [Punct('!'), Ident("fn", 0), Ident(item.name, 0)];
    assert lead[2..] == [Ident("fn", 0), Ident(item.name, 0)];
    assert lead[3..] == [Ident(item.name, 0)];
    DropFirst(Ident(item.name, 0), sig);
    assert afterVis[0] == Ident(kw, 0);
    if !item.isAsync {
      assert kw[0] == 'g';
    }
  }

  lemma Gen2996RoundTrip(item: ItemParse, body: seq<Token>, parseStmts: StmtParser)
    requires WfCustom(item) && parseStmts(body).Ok?
    ensures Gen2996Spec(PrintGen2996(item, body), parseStmts)
         == ItemOutcome(Ok(Parsed(item.(body := parseStmts(body).value), [])), [])
  {
    var sig := PrintSignatureRest(item, true, body);
    var kw := if item.isAsync then "async_gen" else "gen";
    var afterVis := [Ident(kw, 0), Punct('!'), Ident("fn", 0), Ident(item.name, 0)] + sig;
    var afterAttrs := PrintVisibility(item.visibility) + afterVis;
    assert PrintGen2996(item, body) == PrintAttributes(item.attributes) + afterAttrs;
    AttributesRoundTrip(item.attributes, afterAttrs);
    VisibilityRoundTrip(item.visibility, afterVis);
    GenLeadRoundTrip(item, sig);
    var h := Header(item.attributes, item.visibility, item.isAsync, item.name);
    SignatureRestRoundTrip(item, true, body, h, parseStmts);
  }

  /** An ordinary function the `#` form can read back: its signature is an
      identifier-led run of tokens with no brace group that names a
      function. */
  predicate WfItemFn(f: ItemFn) {
    && WfAttributes(f.attrs)
    && (f.vis == Inherited || f.vis == Public)
    && f.sig != [] && f.sig[0].Ident? && f.sig[0].name != "pub" && f.sig[0].name != "crate"
    && FirstBrace(f.sig).None?
    && NamesFunction(f.sig)
  }

  /** `#[attrs] vis <signature> { body }` */
  function PrintItemFn(f: ItemFn, body: seq<Token>): seq<Token>
    requires WfItemFn(f)
  {
    PrintAttributes(f.attrs) + (PrintVisibility(f.vis) + (f.sig + [Group(Brace, body)]))
  }

  lemma {:induction false} FirstBraceAfter(sig: seq<Token>, tail: seq<Token>)
    requires FirstBrace(sig).None? && tail != [] && tail[0].Group? && tail[0].delimiter == Brace
    ensures FirstBrace(sig + tail) == Some(|sig|)
    decreases |sig|
  {
    if sig != [] {
      FirstBraceAfter(sig[1..], tail);
      assert (sig + tail)[1..] == sig[1..] + tail;
    }
  }

  lemma SignatureAndBodyRoundTrip(sig: seq<Token>, body: seq<Token>, rest: seq<Token>, parseStmts: StmtParser)
    requires FirstBrace(sig).None? && NamesFunction(sig) && parseStmts(body).Ok?
    ensures ParseSignatureAndBody(sig + ([Group(Brace, body)] + rest), parseStmts)
         == Ok(Parsed((sig, parseStmts(body).value), rest))
  {
    var ts := sig + ([Group(Brace, body)] + rest);
    FirstBraceAfter(sig, [Group(Brace, body)] + rest);
    assert ts[..|sig|] == sig;
    assert ts[|sig|..] == [Group(Brace, body)] + rest;
  }

  /** `ItemFn::parse` reads a printed function back. */
  lemma ItemFnRoundTrip(f: ItemFn, body: seq<Token>, rest: seq<Token>, parseStmts: StmtParser)
    requires WfItemFn(f) && parseStmts(body).Ok?
    ensures ParseItemFn(PrintItemFn(f, body) + rest, parseStmts)
         == Ok(Parsed(f.(body := parseStmts(body).value), rest))
  {
    var afterVis := f.sig + ([Group(Brace, body)] + rest);
    var afterAttrs := PrintVisibility(f.vis) + afterVis;
    assert PrintItemFn(f, body) + rest == PrintAttributes(f.attrs) + afterAttrs;
    AttributesRoundTrip(f.attrs, afterAttrs);
    VisibilityRoundTrip(f.vis, afterVis);
    SignatureAndBodyRoundTrip(f.sig, body, rest, parseStmts);
  }

  /** A printed ordinary function, after the `#` selector, parses back to
      itself (with the statements the statement parser reads from its
      body), leaving what follows it. */
  lemma GenBlocksRoundTrip(f: ItemFn, body: seq<Token>, rest: seq<Token>, parseStmts: StmtParser)
    requires WfItemFn(f) && parseStmts(body).Ok?
    ensures GenBlocksSpec(PrintItemFn(f, body) + rest, parseStmts)
         == ItemOutcome(Ok(Parsed(Ordinary(f.(body := parseStmts(body).value)), rest)), [])
  {
    ItemFnRoundTrip(f, body, rest, parseStmts);
  }

  /** The whole macro input: the selector, then the printed item and
      nothing after it. */
  lemma MacroInputRoundTrip(item: ItemParse, body: seq<Token>, parseStmts: StmtParser, fnStar: bool)
    requires WfCustom(item) && parseStmts(body).Ok?
    ensures ParseMacroInput([Punct(if fnStar then '*' else '!')]
                            + (if fnStar then PrintFnStar(item, body) else PrintGen2996(item, body)), parseStmts)
         == (Ok(item.(body := parseStmts(body).value)), [])
  {
    var printed := if fnStar then PrintFnStar(item, body) else PrintGen2996(item, body);
    ParseMacroInputMeans([Punct(if fnStar then '*' else '!')] + printed, parseStmts);
    DropFirst(Punct(if fnStar then '*' else '!'), printed);
    if fnStar {
      FnStarRoundTrip(item, body, parseStmts);
    } else {
      Gen2996RoundTrip(item, body, parseStmts);
    }
  }

  /** In the `fn*` grammar an identifier after the arguments must be
      `yields`. */
  lemma OtherWordThanYields(args: seq<FnArg>, w: string, more: seq<Token>, h: Header, parseStmts: StmtParser)
    requires WfArgs(args) && IsPlainIdent(Ident(w, 0)) && w != "yields"
    ensures SignatureRest([Group(Parenthesis, PrintArgList(args))] + ([Ident(w, 0)] + more), h, false, parseStmts)
         == Failed(YieldsMessage)
  {
    var ts := [Group(Parenthesis, PrintArgList(args))] + ([Ident(w, 0)] + more);
    assert ParseGenerics(ts) == Ok(Parsed(Generics([]), ts));
    DropFirst(Group(Parenthesis, PrintArgList(args)), [Ident(w, 0)] + more);
    FnArgsRoundTrip(args, false);
    assert PrintArgList(args) + [] == PrintArgList(args);
    assert YieldsClause(ts[1..]) == Err(SynError(YieldsMessage));
  }

  /** The `fn*` grammar has no `-> Type`: the arrow is where the body
      block is expected. */
  lemma ArrowRefusedInFnStar(args: seq<FnArg>, more: seq<Token>, h: Header, parseStmts: StmtParser)
    requires WfArgs(args)
    ensures SignatureRest([Group(Parenthesis, PrintArgList(args))] + ([Punct('-'), Punct('>')] + more), h, false, parseStmts)
         == Failed("expected curly braces")
  {
    var ts := [Group(Parenthesis, PrintArgList(args))] + ([Punct('-'), Punct('>')] + more);
    assert ParseGenerics(ts) == Ok(Parsed(Generics([]), ts));
    DropFirst(Group(Parenthesis, PrintArgList(args)), [Punct('-'), Punct('>')] + more);
    FnArgsRoundTrip(args, false);
    assert PrintArgList(args) + [] == PrintArgList(args);
    assert ts[1..][0] == Punct('-');
    assert YieldsClause(ts[1..]) == Ok(Parsed(None, ts[1..]));
    assert ParseBlock(ts[1..], parseStmts) == Err(SynError("expected curly braces"));
  }

  /** In the `gen!` grammar the item starts with `gen` or `async_gen`;
      any other token there is refused. */
  lemma OtherGenKeyword(ts: seq<Token>, parseStmts: StmtParser)
    requires ts != [] && ts[0] != Punct('#') && !IsIdent(ts[0], "pub") && !IsIdent(ts[0], "crate")
    requires !IsIdent(ts[0], "gen") && !IsIdent(ts[0], "async_gen")
    ensures Gen2996Spec(ts, parseStmts) == Failed(GenKeywordMessage)
  {
  }
}
