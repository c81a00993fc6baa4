/** The back end of the macro (iterator_item_macros/src/lib.rs:184-272):
    `IteratorItemParse::build`, which turns a generator item into an
    ordinary function returning `impl Iterator` or `impl Stream` over the
    generator `GenMacro::build` emits, or runs the `gen!` expander over an
    ordinary function; and `iterator_item`, the whole pipeline from the
    input tokens to the output. */
module Assemble {
  import opened Tokens
  import opened Syntax
  import opened FrontEnd
  import opened Expand
  import Macrofy

  /** `elision::unelide_lifetimes`, which names the elided lifetimes of the
      arguments and adds them to the generics. Its code is not part of this
      model; the model takes it as a parameter. */
  type Unelider = (Generics, seq<FnArg>) -> (Generics, seq<FnArg>)

  datatype TraitKind = StreamTrait | IteratorTrait

  /** `impl Trait<Item = item> + 'l1 + 'l2 ...` */
  datatype ReturnType = ImplTrait(kind: TraitKind, item: Type, lifetimes: seq<string>)

  /** What the macro expands to. */
  datatype Output =
      /** `attrs vis fn name generics(args) -> returnType { body }` */
    | GeneratorFn(attributes: seq<Attribute>, visibility: Visibility, name: string, generics: Generics,
                  args: seq<FnArg>, returnType: ReturnType, body: Expr)
    | PlainFn(item: ItemFn)
      /** The compile error `parse_macro_input!` returns for input that does not parse. */
    | ErrorOutput(message: string)

  /** The yield type, `()` when the item names none (lib.rs:197-203). */
  function YieldTypeOrUnit(yieldType: Option<Type>): (t: Type)
    ensures yieldType.None? ==> t == Tuple([])
    ensures yieldType.Some? ==> t == yieldType.value
  {
    match yieldType
    case Some(ty) => ty
    case None => Tuple([])
  }

  /** The syntactic test for a fallible yield type (lib.rs:208-221): a path
      without a qualified self, of one segment named `Result` or `Option`. */
  predicate IsTryYield(t: Type)
    ensures IsTryYield(t) <==>
      exists leadingColon, name, args :: (name == "Result" || name == "Option") &&
        t == Path(false, leadingColon, [PathSegment(name, args)])
  {
    match t
    case Path(qself, leadingColon, segments) =>
      var isTry := segments != [] && (segments[0].ident == "Result" || segments[0].ident == "Option");
      var r := !qself && |segments| == 1 && isTry;
      assert r ==> t == Path(false, leadingColon, [PathSegment(segments[0].ident, segments[0].arguments)]);
      r
    case _ => false
  }

  /** The test is by name only: generic arguments and a leading `::` do not
      matter, a longer path to the same type does not count, and `()` is
      never fallible. */
  lemma IsTryYieldByName(args: seq<Token>, leadingColon: bool, prefix: string)
    ensures IsTryYield(Path(false, leadingColon, [PathSegment("Option", args)]))
    ensures IsTryYield(Path(false, leadingColon, [PathSegment("Result", args)]))
    ensures !IsTryYield(Path(false, leadingColon, [PathSegment(prefix, []), PathSegment("Option", args)]))
    ensures !IsTryYield(Path(true, leadingColon, [PathSegment("Option", args)]))
    ensures !IsTryYield(YieldTypeOrUnit(None))
  {
  }

  /** `generics.lifetimes()`: the names of the lifetime parameters, in order. */
  function LifetimesOf(params: seq<GenericParam>): (ls: seq<string>)
    ensures |ls| <= |params|
    ensures forall x :: x in ls <==> exists i :: 0 <= i < |params| && params[i].LifetimeParam? && params[i].name == x
  {
    if params == [] then []
    else
      var rest := LifetimesOf(params[1..]);
      assert forall i :: 1 <= i < |params| ==> params[i] == params[1..][i - 1];
      (if params[0].LifetimeParam? then [params[0].name] else []) + rest
  }

  /** The attributes without the `size_hint` ones, in order. */
  function WithoutSizeHints(attrs: seq<Attribute>): seq<Attribute> {
    if attrs == [] then []
    else WithoutSizeHints(attrs[..|attrs| - 1]) + (if IsSizeHint(attrs[|attrs| - 1]) then [] else [attrs[|attrs| - 1]])
  }

  /** Filtering distributes over concatenation, so the kept attributes keep
      their order ... */
  lemma {:induction false} WithoutSizeHintsAppend(a: seq<Attribute>, b: seq<Attribute>)
    ensures WithoutSizeHints(a + b) == WithoutSizeHints(a) + WithoutSizeHints(b)
    decreases |b|
  {
    if b == [] {
      assert a + b == a;
    } else {
      var b' := b[..|b| - 1];
      assert (a + b)[..|a + b| - 1] == a + b';
      WithoutSizeHintsAppend(a, b');
    }
  }

  /** ... and exactly the attributes other than `size_hint` are kept. */
  lemma {:induction false} WithoutSizeHintsMembers(attrs: seq<Attribute>)
    ensures forall a :: a in WithoutSizeHints(attrs) <==> a in attrs && !IsSizeHint(a)
  {
    if attrs != [] {
      var init := attrs[..|attrs| - 1];
      WithoutSizeHintsMembers(init);
      assert attrs == init + [attrs[|attrs| - 1]];
    }
  }

  /** `attributes.retain(|attr| !attr.path.is_ident("size_hint"))` (lib.rs:245). */
  method RetainNotSizeHint(attrs: seq<Attribute>) returns (kept: seq<Attribute>)
    ensures kept == WithoutSizeHints(attrs)
  {
    kept := [];
    for i := 0 to |attrs|
      invariant kept == WithoutSizeHints(attrs[..i])
    {
      assert attrs[..i + 1][..i] == attrs[..i];
      if !IsSizeHint(attrs[i]) {
        kept := kept + [attrs[i]];
      }
    }
    assert attrs[..|attrs|] == attrs;
  }

  /** What `build` emits for a parsed item. */
  function BuildSpec(item: ItemParse, unelide: Unelider, parseStmts: StmtParser): Output {
    match item
    case Custom(attributes, visibility, isAsync, name, generics, args, yieldType, body) =>
      var itemType := YieldTypeOrUnit(yieldType);
      var unelided := unelide(generics, args);
      var isTryYield := IsTryYield(itemType);
      var returnType := ImplTrait(if isAsync then StreamTrait else IteratorTrait, itemType, LifetimesOf(unelided.0.params));
      var visited := BodyVisitor(isAsync, isTryYield).RewriteStmts(body);
      GeneratorFn(WithoutSizeHints(attributes), visibility, name, unelided.0, unelided.1, returnType,
                  Expand.BuildSpec(GenMacro(visited, isAsync, isTryYield, attributes)))
    case Ordinary(f) => PlainFn(f.(body := ExpandStmts(f.body, parseStmts).value))
  }

  /** The diagnostics `build` emits: one per `return e` in a generator
      item's body, those of the expanded blocks in an ordinary function. */
  function BuildDiagnostics(item: ItemParse, parseStmts: StmtParser): seq<Diagnostic> {
    match item
    case Custom(_, _, _, _, _, _, _, body) => Diags(StmtsReturns(body))
    case Ordinary(f) => ExpandStmts(f.body, parseStmts).diagnostics
  }

  /** `IteratorItemParse::build` (lib.rs:185-261). The body of a generator
      item is visited here and again inside `GenMacro::build`; the second
      visit changes nothing and emits nothing. */
  method Build(item: ItemParse, unelide: Unelider, parseStmts: StmtParser) returns (out: Output, emitted: seq<Diagnostic>)
    ensures out == BuildSpec(item, unelide, parseStmts)
    ensures emitted == BuildDiagnostics(item, parseStmts)
  {
    match item
    case Custom(attributes, visibility, isAsync, name, generics, args, yieldType, body) =>
      var itemType := YieldTypeOrUnit(yieldType);
      var unelided := unelide(generics, args);
      var lifetimes := LifetimesOf(unelided.0.params);
      var isTryYield := IsTryYield(itemType);
      var visitor := BodyVisitor(isAsync, isTryYield);
      var visited, d1 := visitor.VisitBlockMut(body);
      var returnType := ImplTrait(if isAsync then StreamTrait else IteratorTrait, itemType, lifetimes);
      var expansion, d2 := Expand.Build(GenMacro(visited, isAsync, isTryYield, attributes));
      var kept := RetainNotSizeHint(attributes);
      out := GeneratorFn(kept, visibility, name, unelided.0, unelided.1, returnType, expansion);
      visitor.VisitTwice(body);
      assert d2 == [];
      emitted := d1 + d2;
    case Ordinary(original) =>
      var f, d := ExpandItemFn(original, parseStmts);
      out, emitted := PlainFn(f), d;
  }

  /** A generator item becomes a function whose return type is the stream
      trait exactly when the item is async, over the yield type (`()` by
      default) and bounded by every lifetime parameter; it keeps its
      attributes except `size_hint`, in order, while the generator takes its
      size hint from the full list; and its body is the generator built from
      the body visited once, in the mode the item and its yield type give. */
  lemma GeneratorItemBuilt(item: ItemParse, unelide: Unelider, parseStmts: StmtParser)
    requires item.Custom?
    ensures var out := BuildSpec(item, unelide, parseStmts);
            var itemType := YieldTypeOrUnit(item.yieldType);
            var g := GenMacro(item.body, item.isAsync, IsTryYield(itemType), item.attributes);
            && out.GeneratorFn?
            && (out.returnType.kind == StreamTrait <==> item.isAsync)
            && out.returnType.item == itemType
            && out.returnType.lifetimes == LifetimesOf(unelide(item.generics, item.args).0.params)
            && out.attributes == WithoutSizeHints(item.attributes)
            && out.body == Expand.BuildSpec(g)
            && out.body.expansion.sizeHint == LastSizeHint(item.attributes)
            && (out.body.expansion.wrapper == AsyncIteratorItemWrapper <==> item.isAsync)
  {
    var itemType := YieldTypeOrUnit(item.yieldType);
    BodyVisitor(item.isAsync, IsTryYield(itemType)).VisitTwice(item.body);
    BuildShape(GenMacro(item.body, item.isAsync, IsTryYield(itemType), item.attributes));
  }

  // ---------------------------------------------------------------------
  // The pipeline (lib.rs:264-272)
  // ---------------------------------------------------------------------

  /** The output and the diagnostics of `iterator_item` on `input`. */
  function IteratorItemSpec(input: seq<Token>, unelide: Unelider, parseStmts: StmtParser): (Output, seq<Diagnostic>) {
    var parsed := ParseMacroInput(Macrofy.MacrofySpec(input), parseStmts);
    match parsed.0
    case Err(e) => (ErrorOutput(e.message), parsed.1)
    case Ok(item) => (BuildSpec(item, unelide, parseStmts), parsed.1 + BuildDiagnostics(item, parseStmts))
  }

  /** `iterator_item`: macrofy the input, parse all of it as one item, build. */
  method IteratorItem(input: seq<Token>, unelide: Unelider, parseStmts: StmtParser) returns (out: Output, emitted: seq<Diagnostic>)
    ensures (out, emitted) == IteratorItemSpec(input, unelide, parseStmts)
  {
    var tokens := Macrofy.Macrofy(input);
    ParseMacroInputMeans(tokens, parseStmts);
    var stream := new ParseStream(tokens);
    var r;
    r, emitted := Parse(stream, parseStmts);
    if r.Ok? && stream.rest != [] {
      r := Err(SynError("unexpected token"));
    }
    match r
    case Err(e) =>
      out := ErrorOutput(e.message);
    case Ok(item) =>
      var d;
      out, d := Build(item, unelide, parseStmts);
      emitted := emitted + d;
  }

  lemma PipelineOfParsed(input: seq<Token>, item: ItemParse, unelide: Unelider, parseStmts: StmtParser)
    requires ParseMacroInput(Macrofy.MacrofySpec(input), parseStmts) == (Ok(item), [])
    ensures IteratorItemSpec(input, unelide, parseStmts) == (BuildSpec(item, unelide, parseStmts), BuildDiagnostics(item, parseStmts))
  {
    assert [] + BuildDiagnostics(item, parseStmts) == BuildDiagnostics(item, parseStmts);
  }

  /** End to end: a `fn*` item whose tokens hold no `gen` and no `async`
      comes out as the function built from the item with its parsed body. */
  lemma FnStarPipeline(item: ItemParse, body: seq<Token>, unelide: Unelider, parseStmts: StmtParser)
    requires WfCustom(item) && parseStmts(body).Ok?
    requires Macrofy.KeywordFree([Punct('*')] + PrintFnStar(item, body))
    ensures var parsed := item.(body := parseStmts(body).value);
            IteratorItemSpec([Punct('*')] + PrintFnStar(item, body), unelide, parseStmts)
            == (BuildSpec(parsed, unelide, parseStmts), BuildDiagnostics(parsed, parseStmts))
  {
    var input := [Punct('*')] + PrintFnStar(item, body);
    Macrofy.KeywordFreeUnchanged(input);
    MacroInputRoundTrip(item, body, parseStmts, true);
    PipelineOfParsed(input, item.(body := parseStmts(body).value), unelide, parseStmts);
  }
}
