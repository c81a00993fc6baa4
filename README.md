# iterator_item, modelled in Dafny

`iterator_item` is a Rust procedural macro for exploring generator syntax
("iterator items"). It accepts one of three surface forms:

- `fn* name(args) yields T { … }`, introduced by `*`;
- `gen fn name(args) -> T { … }`, introduced by `!`;
- an ordinary `fn` whose body holds `gen { … }` blocks, introduced by `#`.

The macro rewrites each of them into a closure generator wrapped in an
`Iterator` or a `Stream`. A small runtime library gives the meaning of the
lowering macros the rewritten body calls. The test file
`merge_overlapping_intervals.rs` uses the macro for a worked example,
merging sorted intervals.

The project models these pieces:

- **Tokens** (`tokens.dfy`): token trees (`Ident` with a span, `Punct`,
  `Group`, `Literal`), `Option`/`Result`, and the size measures that the
  recursive definitions use.
- **Macrofy** (`macrofy.dfy`): the token pre-pass that turns `gen` into
  `gen!` and `async gen` into `async_gen!`, recursing into groups. It
  contains:
  - `StepSpec`/`Run`/`MacrofySpec`, the pure meaning;
  - the `Step` method;
  - the `MacrofyIter` class (the `Macrofy` iterator with its `inner`,
    `queue` and `state` fields);
  - the `Macrofy` driver.
- **Syntax** and **SynParse** (`syntax.dfy`, `synparse.dfy`): the
  abstract syntax the macro works on. `SynParse` holds pure stand-ins for
  the `syn` sub-parsers the front end calls: identifiers that are not
  keywords, outer attributes, visibility, a fragment of types and
  generics, function arguments, blocks and `ItemFn`.
- **FrontEnd** (`frontend.dfy`): `IteratorItemParse`, the three
  `check_*`/`parse_*` pairs, the dispatch, and the `parse_fn_args` loop.
  The methods work on a `ParseStream` class whose `rest` field they
  consume. Each method is proved against a spec function. Printers and
  round-trip lemmas show what each parser accepts.
- **Expand** (`expand.dfy`): the `BodyVisitor` rewrite of `return`,
  `yield`, `.await` and `?`, with its diagnostics. It also holds:
  - the `#[size_hint]` scan;
  - `GenMacro::build` and `convert_macro`;
  - the `GenMacroExpander` that replaces `gen!`/`async_gen!` invocations
    in an ordinary function.
- **Assemble** (`assemble.dfy`): `IteratorItemParse::build` (the yield
  type, the try-yield test, lifetimes, attribute retention, the return
  type) and the `iterator_item` pipeline (macrofy, parse everything,
  build).
- **Runtime** (`runtime.dfy`): the runtime adapters and the lowering
  macros.
  - `IteratorItem::next` and `AsyncIteratorItem::poll_next` are modelled
    over a generator given as a finite trace.
  - An interpreter runs lowered bodies. It gives `gen_try`,
    `async_gen_try`, `async_gen_yield` and `async_gen_await` their
    meaning, and follows which resume context each poll uses.
  - A reference evaluator runs source bodies. Lemmas prove that
    rewriting a body keeps its meaning and that the stream form yields
    what the iterator form yields.
- **Intervals** (`intervals.dfy`): the worked example. It contains:
  - `overlaps`/`merge`;
  - the `merge_overlapping_intervals` generator body (a loop) and its
    hand-written iterator struct;
  - the k-way `sorted_merge_k_intervals` loop and
    `merge_k_overlapping_intervals`;
  - the test vectors.

Methods carry the source's loops and state changes. Most are proved
against a pure function, and the lemmas are stated about those functions:
round trips, fixed points, idempotence, coverage and sortedness. Three
interval methods are proved against properties instead.
`Intervals.ScanSmallest` returns a minimum, with ties going to the highest
index. `Intervals.MergeHeads` keeps the multiset of intervals.
`Intervals.SortedMergeK` yields a sorted permutation of its inputs.

## Model

| member | source | states |
|---|---|---|
| Macrofy.StepSpec | iterator_item_macros/src/macrofy.rs:14-46 | one step pushes at most two tokens; it pushes nothing exactly when it starts buffering an `async` |
| Macrofy.Step | iterator_item_macros/src/macrofy.rs:14-46 | the new state and the tokens appended to the queue are those of `StepSpec` |
| Macrofy.MacrofyIter.constructor | iterator_item_macros/src/macrofy.rs:68-74 | a fresh iterator (empty queue, `Passthrough`) will deliver exactly the macrofied input |
| Macrofy.MacrofyIter.Next | iterator_item_macros/src/macrofy.rs:58-65 | `next` returns the head of what remains to be delivered, or `None` at the end; the queue never holds more than one token between calls |
| Macrofy.Macrofy | iterator_item_macros/src/macrofy.rs:68-74 | draining the iterator yields the macrofied stream |
| Macrofy.RunSplit | iterator_item_macros/src/macrofy.rs:14-46 | the pass is a left-to-right state machine: running over `a + b` is running over `a`, then over `b` from the state `a` left |
| Macrofy.TopLevelPassthrough | iterator_item_macros/src/macrofy.rs:18-24 | with no `gen`/`async` at top level, each token is kept in place and each group is rebuilt around its own macrofied stream |
| Macrofy.KeywordFreeUnchanged | iterator_item_macros/src/macrofy.rs:41-44 | a stream with no `gen`/`async` at any depth is returned unchanged |
| Macrofy.GenBecomesInvocation | iterator_item_macros/src/macrofy.rs:25-29 | a bare `gen` becomes `gen !`, and everything around it is macrofied independently |
| Macrofy.AsyncGenBecomesInvocation | iterator_item_macros/src/macrofy.rs:30-34 | `async gen` becomes `async_gen !`, and the new identifier carries the span of `gen` |
| Macrofy.AsyncOtherVerbatim | iterator_item_macros/src/macrofy.rs:35-39 | `async` followed by anything but `gen` re-emits both tokens verbatim |
| Macrofy.TrailingAsyncDropped | iterator_item_macros/src/macrofy.rs:58-65 | an `async` that ends the stream is buffered and never emitted |
| Macrofy.AsyncGroupNotRecursed | iterator_item_macros/src/macrofy.rs:35-39 | a group right after `async` is pushed without recursing into it, while a group in passthrough state is recursed into |
| Macrofy.NotIdempotent | iterator_item_macros/src/macrofy.rs:25-29 | running the pass on `gen !` inserts a second `!` |
| Macrofy.OutputBound | iterator_item_macros/src/macrofy.rs:14-46 | the top-level output is at most twice as long as the input |
| SynParse.IsKeywordMeans | iterator_item_macros/src/lib.rs:57 | the fuel-guarded keyword test agrees with the keyword table, so identifier parsing refuses exactly the reserved words |
| SynParse.ContextualWords | iterator_item_macros/src/lib.rs:105-110 | `yields`, `gen` and `async_gen` are not keywords, so the front end can read them as identifiers |
| SynParse.IsPathSegmentIdentMeans | iterator_item_macros/src/lib.rs:210-217 | a path segment is an identifier that is either not a keyword or one of the path keywords |
| SynParse.ParseIdent | iterator_item_macros/src/lib.rs:57 | parsing succeeds exactly on a leading non-keyword identifier, returns its name and consumes one token |
| SynParse.ModPath | iterator_item_macros/src/lib.rs:52 | an attribute path is non-empty and consumes at least one token |
| SynParse.ParseAttribute | iterator_item_macros/src/lib.rs:52 | an outer attribute consumes exactly `#` and its bracket group |
| SynParse.ParseOuterAttributes | iterator_item_macros/src/lib.rs:280 | the parse stops at the first token that is not `#`; without a leading `#` it returns no attributes and consumes nothing |
| SynParse.ParseVisibility | iterator_item_macros/src/lib.rs:53 | without `pub`/`crate` the visibility is inherited and nothing is consumed |
| SynParse.ParseAngleBracketed | iterator_item_macros/src/lib.rs:72 | generic arguments consume a non-empty prefix of the stream |
| SynParse.ParsePathSegments | iterator_item_macros/src/lib.rs:72 | a type path has at least one segment and consumes input |
| SynParse.ParseBounds | iterator_item_macros/src/lib.rs:72 | `impl`/`dyn` bounds consume input |
| SynParse.ParseParenType | iterator_item_macros/src/lib.rs:72 | a parenthesised type or tuple consumes exactly its group |
| SynParse.ParsePointerType | iterator_item_macros/src/lib.rs:72 | a reference or pointer type consumes input |
| SynParse.ParseQualifiedPath | iterator_item_macros/src/lib.rs:72 | a `<T as Trait>::X` path consumes input |
| SynParse.ParseType | iterator_item_macros/src/lib.rs:133 | a parsed type consumes a non-empty prefix of the stream |
| SynParse.ParseTypeList | iterator_item_macros/src/lib.rs:72 | a parenthesised list yields at least one type |
| SynParse.ParseGenericParams | iterator_item_macros/src/lib.rs:58 | one generic parameter is produced per comma-separated chunk |
| SynParse.ParseGenerics | iterator_item_macros/src/lib.rs:125 | without a leading `<` the generics are empty and nothing is consumed |
| SynParse.ParsePat | iterator_item_macros/src/lib.rs:289 | a pattern consumes input and records exactly the tokens it consumed |
| SynParse.ParseFnArg | iterator_item_macros/src/lib.rs:289 | an argument consumes input and carries the attributes parsed before it |
| SynParse.ParseBlock | iterator_item_macros/src/lib.rs:76 | a block parses exactly when the next token is a brace group whose statements parse, and it consumes that group |
| SynParse.FirstBrace | iterator_item_macros/src/lib.rs:160-164 | the result is the index of the first brace group, or `None` when there is none |
| SynParse.ParseSignatureAndBody | iterator_item_macros/src/lib.rs:160-164 | the rest after an `ItemFn` signature and body is a suffix of the input |
| SynParse.ParseItemFn | iterator_item_macros/src/lib.rs:162 | the rest after an ordinary function item is a suffix of the input |
| FrontEnd.ArgTurn | iterator_item_macros/src/lib.rs:279-318 | one loop turn consumes input whenever it continues; a receiver is accepted only as the first argument and only once |
| FrontEnd.ParseFnArgs | iterator_item_macros/src/lib.rs:275-322 | the loop returns the arguments and diagnostics of the spec `FnArgs`, and on success it consumes the whole group |
| FrontEnd.YieldsClause | iterator_item_macros/src/lib.rs:62-75 | the optional `yields T` clause leaves a suffix of its input |
| FrontEnd.ArrowClause | iterator_item_macros/src/lib.rs:129-136 | the optional `-> T` clause leaves a suffix of its input |
| FrontEnd.SignatureRest | iterator_item_macros/src/lib.rs:57-86 | a successful parse gives a `Custom` item whose asynchrony is the header's |
| FrontEnd.GenBlocksSpec | iterator_item_macros/src/lib.rs:160-164 | the `#` form emits no diagnostics and, on success, gives an `Ordinary` item |
| FrontEnd.MacroInputOf | iterator_item_macros/src/lib.rs:270 | `parse_macro_input!` succeeds exactly when the item parses and no tokens are left; diagnostics pass through |
| FrontEnd.CheckFnStar | iterator_item_macros/src/lib.rs:39-47 | returns true exactly when the stream starts with `*`, and consumes it only then |
| FrontEnd.CheckGen2996 | iterator_item_macros/src/lib.rs:89-97 | returns true exactly when the stream starts with `!`, and consumes it only then |
| FrontEnd.CheckGenBlocks | iterator_item_macros/src/lib.rs:150-158 | returns true exactly when the stream starts with `#`, and consumes it only then |
| FrontEnd.ParseSignatureRest | iterator_item_macros/src/lib.rs:57-86 | the method's result, diagnostics and remaining stream agree with `SignatureRest` |
| FrontEnd.ParseFnStar | iterator_item_macros/src/lib.rs:49-87 | the method's result, diagnostics and remaining stream agree with the `fn*` grammar function |
| FrontEnd.ParseGen2996 | iterator_item_macros/src/lib.rs:99-148 | the method's result, diagnostics and remaining stream agree with the `gen fn` grammar function |
| FrontEnd.ParseGenBlocks | iterator_item_macros/src/lib.rs:160-164 | the method agrees with the ordinary-function grammar function |
| FrontEnd.Parse | iterator_item_macros/src/lib.rs:166-182 | the dispatch on `*`/`!`/`#` agrees with `ParseSpec`, including the error when no marker is present |
| FrontEnd.ModPathRoundTrip | iterator_item_macros/src/lib.rs:52 | a printed attribute path parses back to itself and leaves the following tokens |
| FrontEnd.AttributeRoundTrip | iterator_item_macros/src/lib.rs:52 | a printed attribute parses back to itself |
| FrontEnd.AttributesRoundTrip | iterator_item_macros/src/lib.rs:280 | a printed attribute list parses back to itself |
| FrontEnd.SimpleTypeRoundTrip | iterator_item_macros/src/lib.rs:72 | a printed type of the supported fragment parses back to itself |
| FrontEnd.ArgBodyRoundTrip | iterator_item_macros/src/lib.rs:289 | a printed argument (typed or receiver) parses back to itself |
| FrontEnd.ReceiverRoundTrip | iterator_item_macros/src/lib.rs:303-306 | a printed receiver (`self`, `&self`, `&mut self`, `mut self`, with lifetime) is read back as that receiver |
| FrontEnd.TypedArgRoundTrip | iterator_item_macros/src/lib.rs:307 | a printed `name: Type` argument (an identifier pattern) parses back to itself |
| FrontEnd.FnArgsStep | iterator_item_macros/src/lib.rs:311-318 | after an accepted argument, the turn ends the list at end of input, requires `,` otherwise, and continues after it |
| FrontEnd.FnArgsReceiverStep | iterator_item_macros/src/lib.rs:291-302 | a receiver after another receiver, or after any argument, stops the loop with the matching error message |
| FrontEnd.ArgListRoundTrip | iterator_item_macros/src/lib.rs:279-319 | a printed argument list is read back in full by the loop |
| FrontEnd.FnArgsRoundTrip | iterator_item_macros/src/lib.rs:275-322 | `parse_fn_args` of a printed list, with or without a trailing comma, returns that list with no diagnostics |
| FrontEnd.VariadicDropped | iterator_item_macros/src/lib.rs:282-287 | a trailing `...` is skipped with one diagnostic, and the arguments before it are kept |
| FrontEnd.LateReceiverRejected | iterator_item_macros/src/lib.rs:291-302 | a receiver after other arguments is an error: "unexpected second method receiver" when the first was a receiver, "unexpected method receiver" otherwise |
| FrontEnd.PrintedReceiverRefused | iterator_item_macros/src/lib.rs:291-302 | a receiver met once an argument or receiver has been accepted is refused with the matching message |
| FrontEnd.ReceiversComeFirst | iterator_item_macros/src/lib.rs:291-306 | in every successful result a receiver can only be the first argument |
| FrontEnd.OnlyVariadicDiagnostics | iterator_item_macros/src/lib.rs:282-287 | the only diagnostics the loop emits are the variadic ones |
| FrontEnd.YieldClauseRoundTrip | iterator_item_macros/src/lib.rs:62-75 | a printed `yields T` (or `-> T` in the `gen fn` form) or an absent clause parses back to the same optional type |
| FrontEnd.SignatureRestRoundTrip | iterator_item_macros/src/lib.rs:57-86 | a printed signature and body parse back to the item, with the body given by the statement parser |
| FrontEnd.VisibilityRoundTrip | iterator_item_macros/src/lib.rs:53 | a printed inherited or `pub` visibility parses back to itself |
| FrontEnd.FnStarRoundTrip | iterator_item_macros/src/lib.rs:49-87 | a printed `fn*` item parses back to the same `Custom` item, with no diagnostics and no rest |
| FrontEnd.Gen2996RoundTrip | iterator_item_macros/src/lib.rs:99-148 | a printed `gen fn`/`async_gen fn` item parses back to the same item; `async_gen` sets the async flag |
| FrontEnd.ItemFnRoundTrip | iterator_item_macros/src/lib.rs:160-164 | a printed ordinary function (attributes, `pub` or nothing, a signature naming a function, a body) parses back to itself and leaves the tokens after it |
| FrontEnd.GenBlocksRoundTrip | iterator_item_macros/src/lib.rs:160-164 | after the `#` selector, a printed ordinary function is read back as the same `Ordinary` item, with no diagnostic |
| FrontEnd.MacroInputRoundTrip | iterator_item_macros/src/lib.rs:166-182 | `*` or `!` followed by a printed item is accepted as the whole macro input |
| FrontEnd.OtherWordThanYields | iterator_item_macros/src/lib.rs:62-71 | any identifier other than `yields` after the argument list is the "expected contextual keyword `yields`" error |
| FrontEnd.ArrowRefusedInFnStar | iterator_item_macros/src/lib.rs:62-76 | `->` after the arguments of a `fn*` item is a hard error ("expected curly braces") |
| FrontEnd.OtherGenKeyword | iterator_item_macros/src/lib.rs:106-121 | in the `!` form, anything other than `gen`/`async_gen` after the visibility is the "expected keyword `gen`" error |
| Expand.RewriteExprLowers | iterator_item_macros/src/expand.rs:164-216 | after the visit, no `return e`, no `?` and, in async mode, no `yield`/`.await` is left in an expression |
| Expand.RewriteExprsLowers | iterator_item_macros/src/expand.rs:164-216 | the same for a list of expressions |
| Expand.RewriteStmtLowers | iterator_item_macros/src/expand.rs:164-216 | the same for a statement |
| Expand.RewriteStmtsLowers | iterator_item_macros/src/expand.rs:164-216 | the same for a block |
| Expand.LoweredExprFixed | iterator_item_macros/src/expand.rs:164-216 | an already lowered expression is left unchanged and draws no diagnostic |
| Expand.LoweredExprsFixed | iterator_item_macros/src/expand.rs:164-216 | the same for a list of expressions |
| Expand.LoweredStmtFixed | iterator_item_macros/src/expand.rs:164-216 | the same for a statement |
| Expand.LoweredStmtsFixed | iterator_item_macros/src/expand.rs:164-216 | the same for a block |
| Expand.VisitTwice | iterator_item_macros/src/expand.rs:27-28 | visiting a body a second time changes nothing and emits nothing, so the double visit done by `build` is harmless |
| Expand.VisitExprMut | iterator_item_macros/src/expand.rs:164-216 | the bottom-up visit returns the rewritten expression and one diagnostic per `return e` in it |
| Expand.VisitChildren | iterator_item_macros/src/expand.rs:166 | the children are visited first, and their diagnostics are collected |
| Expand.VisitExprsMut | iterator_item_macros/src/expand.rs:164-216 | the visit of a list of expressions is the element-wise rewrite, with the diagnostics concatenated |
| Expand.NestedItemVisited | iterator_item_macros/src/expand.rs:164-186 | a `return e` in a method of a nested `impl` loses its value and counts one diagnostic |
| Expand.VisitStmtMut | iterator_item_macros/src/expand.rs:164-216 | the visit of a statement is its rewrite, with its diagnostics; it enters nested functions and the contents of other nested items (`impl` methods, `mod` items, `const` initializers), as syn's default traversal does |
| Expand.VisitBlockMut | iterator_item_macros/src/expand.rs:164-216 | the visit of a block is its rewrite, with one diagnostic per `return e` |
| Expand.TryFormNamesMode | iterator_item_macros/src/expand.rs:202-213 | the four `?` lowerings are distinct, one per mode: the async ones exactly in async mode, the yielding ones exactly in try-yield mode |
| Expand.LastSizeHintMeans | iterator_item_macros/src/expand.rs:41-56 | without `#[size_hint]` the hint is `(0, None)`; otherwise the last such attribute wins |
| Expand.SizeHintOf | iterator_item_macros/src/expand.rs:41-56 | the attribute loop computes `LastSizeHint` |
| Expand.Build | iterator_item_macros/src/expand.rs:19-80 | `GenMacro::build` returns the generator block of `BuildSpec` and emits one diagnostic per `return e` in the body |
| Expand.BuildShape | iterator_item_macros/src/expand.rs:30-79 | the block uses a `static move` closure over `__stream_ctx` and the `AsyncIteratorItem` wrapper exactly when async; the body is the lowered block followed by the `return; yield panic!()` tail |
| Expand.ParseGenMacro | iterator_item_macros/src/expand.rs:104-116 | parsing a `gen!` body succeeds exactly when its statements parse, giving a non-async, non-try macro with no attributes; otherwise the statement error is passed on |
| Expand.ConvertMacro | iterator_item_macros/src/expand.rs:82-101 | the method returns the expression and diagnostics of the spec `ConvertSpec` |
| Expand.ConvertMeans | iterator_item_macros/src/expand.rs:82-101 | only the paths `gen` and `async_gen` are converted; a body that does not parse becomes a compile-error expression; otherwise a generator is built, async exactly for `async_gen`, with the size hint of the attributes and the body rewritten in non-try mode |
| Expand.ExpandExprMut | iterator_item_macros/src/expand.rs:131-139 | the expression visit replaces a convertible macro and otherwise recurses, into the body of an already emitted generator block too, as `ExpandExpr` says |
| Expand.ExpandExprsMut | iterator_item_macros/src/expand.rs:131-139 | the same over a list of expressions |
| Expand.ExpandStmtMut | iterator_item_macros/src/expand.rs:121-129 | a statement-position item macro is replaced by its conversion; `let` initializers, expression statements, nested functions and the contents of other nested items are recursed into |
| Expand.ExpandBlockMut | iterator_item_macros/src/expand.rs:121-129 | the same over a block |
| Expand.ExpandItemFn | iterator_item_macros/src/lib.rs:256-259 | only the body of the ordinary function changes, to its expanded form, with the expansion's diagnostics |
| Expand.ExpandExprGenFree | iterator_item_macros/src/expand.rs:118-140 | after expansion no `gen!`/`async_gen!` invocation is left outside the generated generators |
| Expand.ExpandExprsGenFree | iterator_item_macros/src/expand.rs:118-140 | the same for a list of expressions |
| Expand.ExpandStmtGenFree | iterator_item_macros/src/expand.rs:118-140 | the same for a statement |
| Expand.ExpandStmtsGenFree | iterator_item_macros/src/expand.rs:118-140 | the same for a block |
| Expand.GenFreeExprKept | iterator_item_macros/src/expand.rs:118-140 | an expression with no generator macro anywhere, the bodies of emitted generators included, is left unchanged, with no diagnostic |
| Expand.GenFreeExprsKept | iterator_item_macros/src/expand.rs:118-140 | the same for a list of expressions |
| Expand.GenFreeStmtKept | iterator_item_macros/src/expand.rs:118-140 | the same for a statement |
| Expand.GenFreeStmtsKept | iterator_item_macros/src/expand.rs:118-140 | the same for a block |
| Expand.NestedGenNotExpanded | iterator_item_macros/src/expand.rs:131-139 | a `gen!` inside a converted block is not converted itself; it stays a macro in the generator's body |
| Expand.SecondPassConvertsNested | iterator_item_macros/src/expand.rs:118-140 | the expander is not idempotent: a second pass enters the emitted generator block and converts the `gen!` the first pass left in it |
| Expand.NestedItemExpanded | iterator_item_macros/src/expand.rs:121-129 | a `gen!` statement in a method of a nested `impl` is converted where it stands |
| Assemble.YieldTypeOrUnit | iterator_item_macros/src/lib.rs:197-203 | a missing yield type becomes `()`; a present one is kept |
| Assemble.IsTryYield | iterator_item_macros/src/lib.rs:208-221 | a yield type is fallible exactly when it is a path with no qualified self and one segment named `Result` or `Option`, with any generic arguments and with or without a leading `::` |
| Assemble.IsTryYieldByName | iterator_item_macros/src/lib.rs:208-221 | `Option<…>`/`Result<…>` count as fallible by name; a longer path, a qualified self or `()` do not |
| Assemble.LifetimesOf | iterator_item_macros/src/lib.rs:205-206 | the lifetimes collected are exactly the names of the lifetime parameters |
| Assemble.WithoutSizeHintsAppend | iterator_item_macros/src/lib.rs:245 | attribute filtering distributes over concatenation |
| Assemble.WithoutSizeHintsMembers | iterator_item_macros/src/lib.rs:245 | an attribute is kept exactly when it was present and is not `#[size_hint]` |
| Assemble.RetainNotSizeHint | iterator_item_macros/src/lib.rs:245 | the `retain` loop computes `WithoutSizeHints`, keeping order |
| Assemble.Build | iterator_item_macros/src/lib.rs:185-261 | `build` returns `BuildSpec` and emits `BuildDiagnostics` |
| Assemble.GeneratorItemBuilt | iterator_item_macros/src/lib.rs:187-255 | a custom item becomes a function returning `impl Stream` exactly when async (else `impl Iterator`), with the yield type or `()`, the unelided lifetimes and the attributes without `#[size_hint]`; its body is the `GenMacro` block, whose size hint comes from the original attributes |
| Assemble.IteratorItem | iterator_item_macros/src/lib.rs:264-272 | `iterator_item` macrofies, parses the whole input, and then builds or reports the parse error |
| Assemble.PipelineOfParsed | iterator_item_macros/src/lib.rs:264-272 | when the macrofied input parses cleanly to an item, the output is exactly that item built |
| Assemble.FnStarPipeline | iterator_item_macros/src/lib.rs:264-272 | `* ` followed by a printed keyword-free `fn*` item produces that item built, with its body from the statement parser |
| Runtime.Generator.constructor | src/lib.rs:92-95 | a generator starts uncompleted, with its whole trace to yield |
| Runtime.Generator.Resume | src/lib.rs:101-103 | `resume` yields the next traced item, or completes when none is left |
| Runtime.IteratorItem.constructor | src/lib.rs:92-95 | the wrapper holds the generator and the size hint it is given |
| Runtime.IteratorItem.Next | src/lib.rs:100-105 | `next` maps `Yielded(x)` to `Some(x)` and `Complete` to `None`, and leaves the size hint unchanged |
| Runtime.IteratorItem.SizeHint | src/lib.rs:107-109 | `size_hint` returns the hint stored when the iterator was built; `Next` and `Collect` leave it unchanged, so the hint does not shrink as items are consumed |
| Runtime.IteratorItem.Collect | src/lib.rs:100-105 | calling `next` until `None` collects exactly the generator's trace and leaves it completed with nothing remaining, so a later call yields nothing; the size hint is unchanged |
| Runtime.StreamItems | src/lib.rs:158-161 | the items a stream delivers are no more than the polls made |
| Runtime.StreamItemsAppend | src/lib.rs:158-161 | the items delivered by a concatenation of poll traces are the concatenation of the items |
| Runtime.AsyncIteratorItem.constructor | src/lib.rs:120-123 | the wrapper holds the generator and the size hint it is given |
| Runtime.AsyncIteratorItem.PollNext | src/lib.rs:154-163 | `Yielded(Ready(x))` gives `Ready(Some(x))`, `Yielded(Pending)` gives `Pending`, and completion gives `Ready(None)`; the size hint is unchanged |
| Runtime.AsyncIteratorItem.SizeHint | src/lib.rs:165-167 | `size_hint` returns the hint stored when the stream was built; `PollNext` and `Collect` leave it unchanged |
| Runtime.AsyncIteratorItem.Collect | src/lib.rs:154-163 | polling until `Ready(None)` delivers the ready items of the trace, in order, and leaves the generator completed with nothing remaining; the size hint is unchanged |
| Runtime.Branch | src/lib.rs:175-176 | `Try::branch` continues with the payload of `Ok`/`Some` and breaks with `Err`/`None` itself as the residual |
| Runtime.AwaitMut | src/lib.rs:210-226 | the `async_gen_await` loop agrees with its lowered meaning: it yields `Pending` until the future is ready, then its output |
| Runtime.AwaitLoopRuns | src/lib.rs:218-223 | awaiting a future that is pending `n` times yields `n` `Pending`s, makes `n + 1` polls, and produces the future's output |
| Runtime.RewriteExprRuns | iterator_item_macros/src/expand.rs:164-216 | running a rewritten expression yields what the source expression means, in every mode and under either context policy |
| Runtime.RewriteStmtRuns | iterator_item_macros/src/expand.rs:164-216 | a rewritten statement yields the same items and ends the same way as the source statement |
| Runtime.RewriteStmtsRuns | iterator_item_macros/src/expand.rs:164-216 | the same for a block |
| Runtime.TailReturns | iterator_item_macros/src/expand.rs:61-67 | the `return; yield panic!()` tail ends the generator without yielding |
| Runtime.BuiltBodyRuns | iterator_item_macros/src/expand.rs:69-79 | the built generator body runs as the visited body followed by completion |
| Runtime.GeneratorRuns | iterator_item_macros/src/expand.rs:19-80 | the generator `GenMacro::build` produces yields exactly the items of the source body's meaning and then completes |
| Runtime.ReadyAll | src/lib.rs:202-206 | wrapping every item in `Ready` keeps the length, element by element |
| Runtime.StreamItemsOfReady | src/lib.rs:158-161 | a trace of `Ready` items delivers exactly those items |
| Runtime.AsyncExprAgrees | iterator_item_macros/src/expand.rs:187-213 | an async body means the sync body's items wrapped in `Ready`, expression by expression |
| Runtime.AsyncStmtAgrees | iterator_item_macros/src/expand.rs:187-213 | the same for a statement |
| Runtime.AsyncStmtsAgrees | iterator_item_macros/src/expand.rs:187-213 | the same for a block |
| Runtime.StreamDeliversIteratorItems | iterator_item_macros/src/expand.rs:187-196 | for a body without `.await`, the stream form delivers exactly the items the iterator form yields, and ends the same way |
| Runtime.EvalYieldLits | tests/generators.rs:24-44 | a run of `yield` statements over literals yields those values, in order |
| Runtime.YieldsRun | tests/generators.rs:4-22 | a generator made of `yield` literals yields those values and completes |
| Runtime.TryFailureEndsRun | tests/generators.rs:46-71 | a failing `?` ends the generator; in try-yield mode the residual is yielded first; nothing after it runs |
| Runtime.StreamFooRuns | tests/stream.rs:7-32 | the `foo` stream yields `Ready(0)`, one `Pending` per pending poll of the future, then `Ready(1)` and `Ready(2)`, so it delivers 0, 1, 2 |
| Runtime.PendingsDeliverNothing | src/lib.rs:160 | a trace of `Pending`s delivers no item |
| Runtime.RefreshedPollsCurrent | src/lib.rs:210-226 | with the context re-read after every resume, every poll uses the context of the current `poll_next` call |
| Runtime.StaleContextInAwait | src/lib.rs:210-226 | as written, the second poll of a future that is pending once uses the context of the first `poll_next` call |
| Runtime.StaleContextAfterYield | src/lib.rs:202-206 | as written, a future awaited after a `yield` is polled with the context of the first `poll_next` call, not the current one |
| Runtime.EvalExprPolls | iterator_item_macros/src/expand.rs:187-201 | every item an async body yields is `Ready` or `Pending` (a poll trace), expression by expression |
| Runtime.EvalStmtPolls | iterator_item_macros/src/expand.rs:187-201 | the same for a statement |
| Runtime.EvalStmtsPolls | iterator_item_macros/src/expand.rs:187-201 | the same for a block, so `poll_next` can consume it |
| Runtime.CollectIterator | src/lib.rs:97-105 | collecting the `IteratorItem` of a sync generator gives the items of its source body |
| Runtime.CollectStream | src/lib.rs:151-163 | collecting the `AsyncIteratorItem` of an async generator gives the ready items of its source body |
| Intervals.Overlaps | tests/merge_overlapping_intervals.rs:20-27 | for well-formed intervals, `overlaps` holds exactly when the larger start is at most the smaller end |
| Intervals.Merge | tests/merge_overlapping_intervals.rs:29-34 | `merge` has the smaller of the two starts and the larger of the two ends, and is well formed when the receiver is |
| Intervals.OverlapsMeans | tests/merge_overlapping_intervals.rs:20-27 | two intervals overlap exactly when they share a point, and overlap is symmetric |
| Intervals.MergeCoversUnion | tests/merge_overlapping_intervals.rs:29-34 | merging two overlapping intervals covers exactly the points of either |
| Intervals.MergeFrom | tests/merge_overlapping_intervals.rs:66-74 | merging from a held interval yields at least one interval and at most one more than the remaining input |
| Intervals.MergeAll | tests/merge_overlapping_intervals.rs:60-76 | the result is no longer than the input, and empty exactly when the input is |
| Intervals.MergeOverlappingIntervals | tests/merge_overlapping_intervals.rs:60-76 | the generator body's loop yields `MergeAll` of its input |
| Intervals.MergeAllCovers | tests/merge_overlapping_intervals.rs:60-76 | the merged intervals cover exactly the points the input covers |
| Intervals.MergeAllSeparated | tests/merge_overlapping_intervals.rs:60-76 | for sorted input, the merged intervals are sorted and pairwise non-overlapping |
| Intervals.MergeAllIdempotent | tests/merge_overlapping_intervals.rs:60-76 | sorted, separated input is its own merge, and merging a merge changes nothing |
| Intervals.MergeOverlappingIntervalsIter.constructor | tests/merge_overlapping_intervals.rs:104-109 | the hand-written iterator will deliver `MergeAll` of its input |
| Intervals.MergeOverlappingIntervalsIter.Next | tests/merge_overlapping_intervals.rs:88-101 | `next` returns the head of what remains, or `None` at the end |
| Intervals.CollectHandmade | tests/merge_overlapping_intervals.rs:104-109 | the hand-written iterator delivers the same intervals as the generator |
| Intervals.MergeExamples | tests/merge_overlapping_intervals.rs:161-216 | the four single-input test vectors merge to the expected intervals |
| Intervals.FirstSome | tests/merge_overlapping_intervals.rs:118-122 | the result is the first present head with its index, or `None` exactly when no head is present |
| Intervals.ScanSmallest | tests/merge_overlapping_intervals.rs:124-134 | the scan picks a present head no greater than any other head; ties go to the last index holding that value |
| Intervals.SortedMergeK | tests/merge_overlapping_intervals.rs:111-142 | the yielded intervals are a permutation of all inputs, and sorted when every input is sorted |
| Intervals.MergeHeads | tests/merge_overlapping_intervals.rs:123-140 | the outer loop yields exactly the pending heads and tails, sorted when the heads are ordered |
| Intervals.Round | tests/merge_overlapping_intervals.rs:135-139 | one round of yielding the smallest head and advancing its input keeps the multiset, order and exhaustion invariants, and shrinks what is pending |
| Intervals.SortedUnique | tests/merge_overlapping_intervals.rs:144-159 | two sorted sequences with the same elements are equal, so the k-way merge's output is determined |
| Intervals.MergeKOverlapping | tests/merge_overlapping_intervals.rs:153-159 | for sorted inputs, the result is `MergeAll` of the sorted union of all inputs |
| Intervals.SortedMergeKExample | tests/merge_overlapping_intervals.rs:218-243 | the k-way merge test vector yields the expected seven intervals |
| Intervals.MergeKOverlappingExample | tests/merge_overlapping_intervals.rs:245-266 | the k-way merge-and-join test vector yields `[1,4] [5,6] [8,14]` |

## Left out

- In-place mutation of the `syn` syntax tree (`visit_*_mut` on `&mut`) is
  modelled as methods that return the rewritten value. The model does not
  capture aliasing of the tree.
- `elision::unelide_lifetimes` is a function parameter (`Unelider`).
  `elision.rs` is not part of this model, so its idempotence is not stated.
- `syn`'s statement parser (`Block::parse_within`) is a function parameter
  (`StmtParser`). Only the token grammar around it is modelled: types,
  generics and patterns are a representative fragment.
- A nested item other than a `fn` keeps its own tokens opaque. Only the
  statements, functions and initializers nested in it are modelled, and
  both visitors enter those.
- The block `GenMacro::build` emits is a `Generator` node. The expander
  enters its body, but not its size-hint tokens or its wrapper. The body
  visitor treats the node as opaque, because in the crate it only runs on
  bodies that have not been expanded yet.
- Spans, `Spacing`, `quote!`, `parse_quote!` and `TokenStream`
  conversion are not modelled. Diagnostics are returned as an
  out-parameter sequence instead of being emitted, and they carry no span
  or help text.
- The generators are closures compiled by `rustc`. The model replaces
  them with a finite trace (`Generator`) and with an interpreter for
  straight-line bodies of literals, `yield`, `?`, `.await` and blocks.
  A `let` statement runs its initializer and keeps its effects, but the
  binding is dropped. Reading a local variable, calls, operators, `if`,
  loops, closures, other macros and `return` with a value are reported as
  `Unsupported`, and those runs are excluded from the run lemmas.
- `Pin`, `unsafe` and the raw `*mut Context` casts are not modelled. A
  resume context is modelled as the index of the `poll_next` call that
  supplied it.
- The `std_async_iter` implementation of `Stream` (src/lib.rs:128-148)
  is identical to the default one and is modelled once.
- `size_hint` is a stored value. Its tokens are not evaluated.
- `FromResidual::from_residual` is taken to be the identity on the
  residual.
- `gen_try_bare` and `async_gen_try_bare` are not defined in the library.
  Their meaning is taken to be "end the generator without yielding", as
  the comment at expand.rs:207-209 describes.
- Runtime.Generator.Resume, Runtime.IteratorItem.Next,
  Runtime.IteratorItem.Collect, Runtime.AsyncIteratorItem.PollNext and
  Runtime.AsyncIteratorItem.Collect: resuming a completed generator panics
  in Rust. The model excludes it by a precondition (`!gen.completed`).
- Three behaviours of the code are modelled as written:
  - `->` after a `fn*` signature is a parse error
    (`FrontEnd.ArrowRefusedInFnStar`).
  - The `gen` to `gen!` pass inserts `!` after every `gen`, including one
    already followed by `!` (`Macrofy.NotIdempotent`). It also drops an
    `async` that ends a stream (`Macrofy.TrailingAsyncDropped`).
  - The `!` form accepts only the words `gen` and `async_gen`
    (`FrontEnd.OtherGenKeyword`).
- The async tests driven by `tokio` are represented only by their
  straight-line generator (`foo` in tests/stream.rs). The `stream` example
  needs a `for` loop and is left out.

## Findings

| source | as written | input that shows it | evidently intended | confidence | as-written member | corrected member |
|---|---|---|---|---|---|---|
| src/lib.rs:210-226 | `async_gen_await` converts `$ctx` into `ctx` once, before its loop. The `$ctx = yield Poll::Pending` rebinding updates only `$ctx`, so every later poll of the same future uses the first context | `async fn* f(fut) yields i32 { yield fut.await; }` with a future that is pending once: the second `poll_next` call polls the future with the context of the first call | each poll uses the context of the `poll_next` call that resumed the generator (re-derive `ctx` after each resume) | not executed | Runtime.StaleContextInAwait | Runtime.RefreshedPollsCurrent |
| src/lib.rs:202-206 | `async_gen_yield` is a bare `yield`, and the resume argument it receives is discarded, so `__stream_ctx` keeps the context of an earlier `poll_next` call | `foo` of tests/stream.rs:7-13: after `yield 0`, `fut.await` polls `fut` with the context of the first `poll_next` call, not of the second | `__stream_ctx = yield Poll::Ready(e)`, so the context is refreshed at every resume | not executed | Runtime.StaleContextAfterYield | Runtime.RefreshedPollsCurrent |
