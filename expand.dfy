/** The body rewriter and the generator assembler
    (iterator_item_macros/src/expand.rs): the bottom-up visitor that lowers
    `return`, `yield`, `.await` and `?` according to two mode flags, the
    size-hint scan, the block `GenMacro::build` emits, `convert_macro`, and
    the expander that replaces `gen!`/`async_gen!` invocations in an ordinary
    function body. The syntax trees are values: a visitor that overwrites a
    node in place is modelled by a method returning the new node. */
module Expand {
  import opened Tokens
  import opened Syntax

  /** The error `return e` draws inside an iterator body (expand.rs:179-183). */
  const ReturnDiagnostic := Diagnostic("iterator items can't return a non-`()` value",
                                       Some("returning in an iterator is only meant for stopping the iterator"))

  /** `n` return diagnostics. */
  function Diags(n: nat): seq<Diagnostic> {
    seq(n, _ => ReturnDiagnostic)
  }

  lemma DiagsAdd(a: nat, b: nat)
    ensures Diags(a) + Diags(b) == Diags(a + b)
  {
    assert forall i :: 0 <= i < a + b ==> (Diags(a) + Diags(b))[i] == ReturnDiagnostic;
  }

  // ---------------------------------------------------------------------
  // Counting the `return e` nodes the visitor reaches. Macro invocations
  // (including the ones the rewriter emits) are opaque to a syn visitor.
  // ---------------------------------------------------------------------

  function ChildReturns(e: Expr): nat
    decreases ExprSize(e), 0
  {
    match e
    case Return(v) => if v.Some? then ValueReturns(v.value) else 0
    case Yield(v) => if v.Some? then ValueReturns(v.value) else 0
    case Await(b) => ValueReturns(b)
    case Try(x) => ValueReturns(x)
    case Block(ss) => StmtsReturns(ss)
    case Node(_, cs) => ExprsReturns(cs)
    case _ => 0
  }

  /** The number of `return e` (with a value) in `e`, its own node included. */
  function ValueReturns(e: Expr): nat
    decreases ExprSize(e), 1
  {
    ChildReturns(e) + (if e.Return? && e.value.Some? then 1 else 0)
  }

  function ExprsReturns(es: seq<Expr>): nat
    decreases ExprsSize(es), 2
  {
    if es == [] then 0 else ValueReturns(es[0]) + ExprsReturns(es[1..])
  }

  function StmtReturns(s: Stmt): nat
    decreases StmtSize(s), 1
  {
    match s
    case Local(_, init) => if init.Some? then ValueReturns(init.value) else 0
    case ExprStmt(x, _) => ValueReturns(x)
    case NestedFn(f) => StmtsReturns(f.body)
    case OtherItem(_, ms) => StmtsReturns(ms)
    case _ => 0
  }

  function StmtsReturns(ss: seq<Stmt>): nat
    decreases StmtsSize(ss), 2
  {
    if ss == [] then 0 else StmtReturns(ss[0]) + StmtsReturns(ss[1..])
  }

  // ---------------------------------------------------------------------
  // BodyVisitor (expand.rs:145-217)
  // ---------------------------------------------------------------------

  /** The visitor and its two mode flags. Its specification is the bottom-up
      rewrite `RewriteExpr`: the children first (syn's default traversal,
      expand.rs:166), then the node itself (`RewriteNode`, expand.rs:167-215).
      Syn's traversal reaches closures and nested functions too, so their
      `return`, `?` and `yield` are rewritten like the body's own. */
  datatype BodyVisitor = BodyVisitor(isAsync: bool, isTryYield: bool)
  {
    /** The macro that replaces `e?` (expand.rs:203-212). */
    function TryForm(): LoweringMacro {
      match (isAsync, isTryYield)
      case (true, true) => AsyncGenTry
      case (false, true) => GenTry
      case (true, false) => AsyncGenTryBare
      case (false, false) => GenTryBare
    }

    function RewriteNode(e: Expr): Expr {
      match e
      case Return(_) => Return(None)
      case Yield(v) =>
        if isAsync then Lowered(AsyncGenYield, if v.Some? then v.value else Lit(UnitVal)) else e
      case Await(b) => if isAsync then Lowered(AsyncGenAwait, b) else e
      case Try(x) => Lowered(TryForm(), x)
      case _ => e
    }

    function RewriteChildren(e: Expr): Expr
      decreases ExprSize(e), 0
    {
      match e
      case Return(v) => if v.Some? then Return(Some(RewriteExpr(v.value))) else e
      case Yield(v) => if v.Some? then Yield(Some(RewriteExpr(v.value))) else e
      case Await(b) => Await(RewriteExpr(b))
      case Try(x) => Try(RewriteExpr(x))
      case Block(ss) => Block(RewriteStmts(ss))
      case Node(k, cs) => Node(k, RewriteExprs(cs))
      case _ => e
    }

    function RewriteExpr(e: Expr): Expr
      decreases ExprSize(e), 1
    {
      RewriteNode(RewriteChildren(e))
    }

    function RewriteExprs(es: seq<Expr>): seq<Expr>
      decreases ExprsSize(es), 2
    {
      if es == [] then [] else [RewriteExpr(es[0])] + RewriteExprs(es[1..])
    }

    function RewriteStmt(s: Stmt): Stmt
      decreases StmtSize(s), 1
    {
      match s
      case Local(p, init) => if init.Some? then Local(p, Some(RewriteExpr(init.value))) else s
      case ExprStmt(x, semi) => ExprStmt(RewriteExpr(x), semi)
      case NestedFn(f) => NestedFn(f.(body := RewriteStmts(f.body)))
      case OtherItem(ts, ms) => OtherItem(ts, RewriteStmts(ms))
      case _ => s
    }

    function RewriteStmts(ss: seq<Stmt>): seq<Stmt>
      decreases StmtsSize(ss), 2
    {
      if ss == [] then [] else [RewriteStmt(ss[0])] + RewriteStmts(ss[1..])
    }

    // What a rewritten tree looks like: no `?`, no `return e`, and in async
    // mode no `yield` and no `.await` where the visitor can see them.

    predicate LoweredExpr(e: Expr)
      decreases ExprSize(e), 1
    {
      match e
      case Return(v) => v.None?
      case Yield(v) => !isAsync && (v.Some? ==> LoweredExpr(v.value))
      case Await(b) => !isAsync && LoweredExpr(b)
      case Try(_) => false
      case Block(ss) => LoweredStmts(ss)
      case Node(_, cs) => LoweredExprs(cs)
      case _ => true
    }

    predicate LoweredExprs(es: seq<Expr>)
      decreases ExprsSize(es), 2
    {
      es == [] || (LoweredExpr(es[0]) && LoweredExprs(es[1..]))
    }

    predicate LoweredStmt(s: Stmt)
      decreases StmtSize(s), 1
    {
      match s
      case Local(_, init) => init.Some? ==> LoweredExpr(init.value)
      case ExprStmt(x, _) => LoweredExpr(x)
      case NestedFn(f) => LoweredStmts(f.body)
      case OtherItem(_, ms) => LoweredStmts(ms)
      case _ => true
    }

    predicate LoweredStmts(ss: seq<Stmt>)
      decreases StmtsSize(ss), 2
    {
      ss == [] || (LoweredStmt(ss[0]) && LoweredStmts(ss[1..]))
    }

    // The rewrite produces lowered trees ...

    lemma {:induction false} RewriteExprLowers(e: Expr)
      ensures LoweredExpr(RewriteExpr(e))
      decreases ExprSize(e), 1
    {
      match e
      case Yield(v) => if v.Some? { RewriteExprLowers(v.value); }
      case Await(b) => RewriteExprLowers(b);
      case Block(ss) => RewriteStmtsLowers(ss);
      case Node(_, cs) => RewriteExprsLowers(cs);
      case _ =>
    }

    lemma {:induction false} RewriteExprsLowers(es: seq<Expr>)
      ensures LoweredExprs(RewriteExprs(es))
      decreases ExprsSize(es), 2
    {
      if es != [] {
        RewriteExprLowers(es[0]);
        RewriteExprsLowers(es[1..]);
        assert RewriteExprs(es)[1..] == RewriteExprs(es[1..]);
      }
    }

    lemma {:induction false} RewriteStmtLowers(s: Stmt)
      ensures LoweredStmt(RewriteStmt(s))
      decreases StmtSize(s), 1
    {
      match s
      case Local(_, init) => if init.Some? { RewriteExprLowers(init.value); }
      case ExprStmt(x, _) => RewriteExprLowers(x);
      case NestedFn(f) => RewriteStmtsLowers(f.body);
      case OtherItem(_, ms) => RewriteStmtsLowers(ms);
      case _ =>
    }

    lemma {:induction false} RewriteStmtsLowers(ss: seq<Stmt>)
      ensures LoweredStmts(RewriteStmts(ss))
      decreases StmtsSize(ss), 2
    {
      if ss != [] {
        RewriteStmtLowers(ss[0]);
        RewriteStmtsLowers(ss[1..]);
        assert RewriteStmts(ss)[1..] == RewriteStmts(ss[1..]);
      }
    }

    // ... and leaves lowered trees alone, without a diagnostic.

    lemma {:induction false} LoweredExprFixed(e: Expr)
      requires LoweredExpr(e)
      ensures RewriteExpr(e) == e && ValueReturns(e) == 0
      decreases ExprSize(e), 1
    {
      match e
      case Yield(v) => if v.Some? { LoweredExprFixed(v.value); }
      case Await(b) => LoweredExprFixed(b);
      case Block(ss) => LoweredStmtsFixed(ss);
      case Node(_, cs) => LoweredExprsFixed(cs);
      case _ =>
    }

    lemma {:induction false} LoweredExprsFixed(es: seq<Expr>)
      requires LoweredExprs(es)
      ensures RewriteExprs(es) == es && ExprsReturns(es) == 0
      decreases ExprsSize(es), 2
    {
      if es != [] {
        LoweredExprFixed(es[0]);
        LoweredExprsFixed(es[1..]);
        assert [es[0]] + es[1..] == es;
      }
    }

    lemma {:induction false} LoweredStmtFixed(s: Stmt)
      requires LoweredStmt(s)
      ensures RewriteStmt(s) == s && StmtReturns(s) == 0
      decreases StmtSize(s), 1
    {
      match s
      case Local(_, init) => if init.Some? { LoweredExprFixed(init.value); }
      case ExprStmt(x, _) => LoweredExprFixed(x);
      case NestedFn(f) => LoweredStmtsFixed(f.body);
      case OtherItem(_, ms) => LoweredStmtsFixed(ms);
      case _ =>
    }

    lemma {:induction false} LoweredStmtsFixed(ss: seq<Stmt>)
      requires LoweredStmts(ss)
      ensures RewriteStmts(ss) == ss && StmtsReturns(ss) == 0
      decreases StmtsSize(ss), 2
    {
      if ss != [] {
        LoweredStmtFixed(ss[0]);
        LoweredStmtsFixed(ss[1..]);
        assert [ss[0]] + ss[1..] == ss;
      }
    }

    /** Visiting a body a second time changes nothing and emits nothing. */
    lemma VisitTwice(ss: seq<Stmt>)
      ensures RewriteStmts(RewriteStmts(ss)) == RewriteStmts(ss)
      ensures StmtsReturns(RewriteStmts(ss)) == 0
    {
      RewriteStmtsLowers(ss);
      LoweredStmtsFixed(RewriteStmts(ss));
    }

    // The visitor itself.

    /** `visit_expr_mut`: the children, then the node. */
    method VisitExprMut(e: Expr) returns (r: Expr, emitted: seq<Diagnostic>)
      ensures r == RewriteExpr(e)
      ensures emitted == Diags(ValueReturns(e))
      decreases ExprSize(e), 1
    {
      var visited;
      visited, emitted := VisitChildren(e);
      match visited
      case Return(v) =>
        if v.Some? {
          DiagsAdd(ChildReturns(e), 1);
          emitted := emitted + [ReturnDiagnostic];
        }
        r := Return(None);
      case Yield(v) =>
        if isAsync {
          r := Lowered(AsyncGenYield, if v.Some? then v.value else Lit(UnitVal));
        } else {
          r := visited;
        }
      case Await(b) =>
        if isAsync {
          r := Lowered(AsyncGenAwait, b);
        } else {
          r := visited;
        }
      case Try(x) =>
        match (isAsync, isTryYield) {
          case (true, true) => r := Lowered(AsyncGenTry, x);
          case (false, true) => r := Lowered(GenTry, x);
          case (true, false) => r := Lowered(AsyncGenTryBare, x);
          case (false, false) => r := Lowered(GenTryBare, x);
        }
      case _ =>
        r := visited;
    }

    /** syn's default traversal of an expression's children. */
    method VisitChildren(e: Expr) returns (r: Expr, emitted: seq<Diagnostic>)
      ensures r == RewriteChildren(e)
      ensures emitted == Diags(ChildReturns(e))
      decreases ExprSize(e), 0
    {
      match e
      case Return(v) =>
        if v.Some? {
          var x;
          x, emitted := VisitExprMut(v.value);
          r := Return(Some(x));
        } else {
          r, emitted := e, [];
        }
      case Yield(v) =>
        if v.Some? {
          var x;
          x, emitted := VisitExprMut(v.value);
          r := Yield(Some(x));
        } else {
          r, emitted := e, [];
        }
      case Await(b) =>
        var x;
        x, emitted := VisitExprMut(b);
        r := Await(x);
      case Try(b) =>
        var x;
        x, emitted := VisitExprMut(b);
        r := Try(x);
      case Block(ss) =>
        var xs;
        xs, emitted := VisitBlockMut(ss);
        r := Block(xs);
      case Node(k, cs) =>
        var xs;
        xs, emitted := VisitExprsMut(cs);
        r := Node(k, xs);
      case _ =>
        r, emitted := e, [];
    }

    method VisitExprsMut(es: seq<Expr>) returns (r: seq<Expr>, emitted: seq<Diagnostic>)
      ensures r == RewriteExprs(es)
      ensures emitted == Diags(ExprsReturns(es))
      decreases ExprsSize(es), 2
    {
      r, emitted := [], [];
      ghost var n: nat := 0;
      var i := 0;
      while i < |es|
        invariant 0 <= i <= |es|
        invariant r + RewriteExprs(es[i..]) == RewriteExprs(es)
        invariant emitted == Diags(n) && n + ExprsReturns(es[i..]) == ExprsReturns(es)
      {
        ExprsElementSize(es, i);
        var x, d := VisitExprMut(es[i]);
        assert es[i..][1..] == es[i + 1..];
        AppendAssoc3(r, [x], RewriteExprs(es[i + 1..]));
        DiagsAdd(n, ValueReturns(es[i]));
        r, emitted, n := r + [x], emitted + d, n + ValueReturns(es[i]);
        i := i + 1;
      }
    }

    method VisitStmtMut(s: Stmt) returns (r: Stmt, emitted: seq<Diagnostic>)
      ensures r == RewriteStmt(s)
      ensures emitted == Diags(StmtReturns(s))
      decreases StmtSize(s), 1
    {
      match s
      case Local(p, init) =>
        if init.Some? {
          var x;
          x, emitted := VisitExprMut(init.value);
          r := Local(p, Some(x));
        } else {
          r, emitted := s, [];
        }
      case ExprStmt(x, semi) =>
        var y;
        y, emitted := VisitExprMut(x);
        r := ExprStmt(y, semi);
      case NestedFn(f) =>
        var body;
        body, emitted := VisitBlockMut(f.body);
        r := NestedFn(f.(body := body));
      case OtherItem(ts, ms) =>
        var members;
        members, emitted := VisitBlockMut(ms);
        r := OtherItem(ts, members);
      case _ =>
        r, emitted := s, [];
    }

    /** `visit_block_mut`: every statement in order. */
    method VisitBlockMut(ss: seq<Stmt>) returns (r: seq<Stmt>, emitted: seq<Diagnostic>)
      ensures r == RewriteStmts(ss)
      ensures emitted == Diags(StmtsReturns(ss))
      decreases StmtsSize(ss), 2
    {
      r, emitted := [], [];
      ghost var n: nat := 0;
      var i := 0;
      while i < |ss|
        invariant 0 <= i <= |ss|
        invariant r + RewriteStmts(ss[i..]) == RewriteStmts(ss)
        invariant emitted == Diags(n) && n + StmtsReturns(ss[i..]) == StmtsReturns(ss)
      {
        StmtsElementSize(ss, i);
        var x, d := VisitStmtMut(ss[i]);
        assert ss[i..][1..] == ss[i + 1..];
        AppendAssoc3(r, [x], RewriteStmts(ss[i + 1..]));
        DiagsAdd(n, StmtReturns(ss[i]));
        r, emitted, n := r + [x], emitted + d, n + StmtReturns(ss[i]);
        i := i + 1;
      }
    }
  }

  /** The visitor enters items nested in a body, not only functions: a
      `return e` in a method of a nested `impl` loses its value and is
      reported, as anywhere else in the body. */
  lemma NestedItemVisited(v: BodyVisitor, ts: seq<Token>, f: ItemFn, x: Value)
    requires f.body == [ExprStmt(Return(Some(Lit(x))), true)]
    ensures v.RewriteStmt(OtherItem(ts, [NestedFn(f)]))
            == OtherItem(ts, [NestedFn(f.(body := [ExprStmt(Return(None), true)]))])
    ensures StmtReturns(OtherItem(ts, [NestedFn(f)])) == 1
  {
    var ret := Return(Some(Lit(x)));
    assert v.RewriteExpr(Lit(x)) == Lit(x);
    assert v.RewriteExpr(ret) == Return(None);
    assert v.RewriteStmts(f.body) == [ExprStmt(Return(None), true)] by {
      assert f.body[1..] == [];
    }
    assert StmtsReturns(f.body) == 1 by {
      assert f.body[1..] == [];
      assert ValueReturns(Lit(x)) == 0;
      assert ValueReturns(ret) == 1;
      assert StmtReturns(f.body[0]) == 1;
    }
    var g := NestedFn(f);
    assert [g][1..] == [];
    assert v.RewriteStmt(g) == NestedFn(f.(body := [ExprStmt(Return(None), true)]));
    assert v.RewriteStmts([g]) == [v.RewriteStmt(g)];
    assert StmtReturns(g) == 1;
    assert StmtsReturns([g]) == 1;
  }

  /** The `?` macro names the mode it was emitted in: no two modes share one,
      and it is an `async_gen_*` form exactly in async mode. */
  lemma TryFormNamesMode(v: BodyVisitor, w: BodyVisitor)
    ensures v.TryForm() == w.TryForm() <==> v == w
    ensures v.TryForm() in {AsyncGenTry, AsyncGenTryBare} <==> v.isAsync
    ensures v.TryForm() in {GenTry, AsyncGenTry} <==> v.isTryYield
  {
  }

  // ---------------------------------------------------------------------
  // The size hint (expand.rs:41-56)
  // ---------------------------------------------------------------------

  /** `(0, None)` */
  const DefaultSizeHint: seq<Token> := [Group(Parenthesis, [Literal("0"), Punct(','), Ident("None", 0)])]

  /** The tokens of the last `size_hint` attribute, or the default. */
  function LastSizeHint(attrs: seq<Attribute>): seq<Token> {
    if attrs == [] then DefaultSizeHint
    else if IsSizeHint(attrs[|attrs| - 1]) then attrs[|attrs| - 1].tokens
    else LastSizeHint(attrs[..|attrs| - 1])
  }

  /** The default stands unless some attribute is a `size_hint`, and then the
      last such attribute wins. */
  lemma {:induction false} LastSizeHintMeans(attrs: seq<Attribute>)
    ensures (forall i :: 0 <= i < |attrs| ==> !IsSizeHint(attrs[i])) ==> LastSizeHint(attrs) == DefaultSizeHint
    ensures forall i :: 0 <= i < |attrs| && IsSizeHint(attrs[i]) && (forall j :: i < j < |attrs| ==> !IsSizeHint(attrs[j]))
                        ==> LastSizeHint(attrs) == attrs[i].tokens
  {
    if attrs != [] {
      var init := attrs[..|attrs| - 1];
      LastSizeHintMeans(init);
      assert forall i :: 0 <= i < |init| ==> init[i] == attrs[i];
    }
  }

  /** The loop over the attributes, each `size_hint` overwriting the value so far. */
  method SizeHintOf(attributes: seq<Attribute>) returns (sizeHint: seq<Token>)
    ensures sizeHint == LastSizeHint(attributes)
  {
    sizeHint := DefaultSizeHint;
    for i := 0 to |attributes|
      invariant sizeHint == LastSizeHint(attributes[..i])
    {
      assert attributes[..i + 1][..i] == attributes[..i];
      if IsSizeHint(attributes[i]) {
        sizeHint := attributes[i].tokens;
      }
    }
    assert attributes[..|attributes|] == attributes;
  }

  // ---------------------------------------------------------------------
  // GenMacro (expand.rs:11-116)
  // ---------------------------------------------------------------------

  datatype GenMacro = GenMacro(body: seq<Stmt>, isAsync: bool, isTryYield: bool, attributes: seq<Attribute>)

  /** `{ return; yield panic!(); }`, which makes even an empty body a
      generator and ends it (expand.rs:61-67). */
  const Tail: Stmt :=
    ExprStmt(Block([ExprStmt(Return(None), true), ExprStmt(Yield(Some(Macro([], ["panic"], []))), true)]), false)

  function HeadFor(isAsync: bool): ClosureHead {
    if isAsync then StaticMoveCtxClosure else MoveClosure
  }

  function WrapperFor(isAsync: bool): Wrapper {
    if isAsync then AsyncIteratorItemWrapper else IteratorItemWrapper
  }

  /** What `build` emits: the size hint bound first, then the closure over the
      visited body followed by the tail, then the wrapper. */
  function BuildSpec(g: GenMacro): Expr {
    var visitor := BodyVisitor(g.isAsync, g.isTryYield);
    Generator(Expansion(LastSizeHint(g.attributes), HeadFor(g.isAsync),
                        [ExprStmt(Block(visitor.RewriteStmts(g.body)), false), Tail],
                        WrapperFor(g.isAsync)))
  }

  /** `GenMacro::build` (expand.rs:19-80). */
  method Build(g: GenMacro) returns (e: Expr, emitted: seq<Diagnostic>)
    ensures e == BuildSpec(g)
    ensures emitted == Diags(StmtsReturns(g.body))
  {
    var visitor := BodyVisitor(g.isAsync, g.isTryYield);
    var body;
    body, emitted := visitor.VisitBlockMut(g.body);
    var wrapper := if g.isAsync then AsyncIteratorItemWrapper else IteratorItemWrapper;
    var head := if g.isAsync then StaticMoveCtxClosure else MoveClosure;
    var sizeHint := SizeHintOf(g.attributes);
    e := Generator(Expansion(sizeHint, head, [ExprStmt(Block(body), false), Tail], wrapper));
  }

  /** The shape of every generator `build` emits: the closure head and the
      wrapper agree with the mode, the visited body comes first and is
      lowered, and the tail comes last. */
  lemma BuildShape(g: GenMacro)
    ensures BuildSpec(g).Generator?
    ensures var x := BuildSpec(g).expansion;
            && (x.head == StaticMoveCtxClosure <==> g.isAsync)
            && (x.wrapper == AsyncIteratorItemWrapper <==> g.isAsync)
            && |x.body| == 2 && x.body[1] == Tail
            && x.body[0].ExprStmt? && x.body[0].expr.Block?
            && BodyVisitor(g.isAsync, g.isTryYield).LoweredStmts(x.body[0].expr.stmts)
  {
    BodyVisitor(g.isAsync, g.isTryYield).RewriteStmtsLowers(g.body);
  }

  /** `Parse for GenMacro` (expand.rs:104-116): the whole macro body is a
      statement list; the flags start false and there are no attributes. */
  function ParseGenMacro(tokens: seq<Token>, parseStmts: StmtParser): (r: Result<GenMacro>)
    ensures r.Ok? <==> parseStmts(tokens).Ok?
    ensures r.Ok? ==> r.value == GenMacro(parseStmts(tokens).value, false, false, [])
    ensures r.Err? ==> r.error == parseStmts(tokens).error
  {
    match parseStmts(tokens)
    case Ok(stmts) => Ok(GenMacro(stmts, false, false, []))
    case Err(e) => Err(e)
  }

  predicate IsGenPath(path: seq<string>) {
    path == ["gen"] || path == ["async_gen"]
  }

  /** What `convert_macro` returns for `path!{tokens}` carrying `attrs`. */
  function ConvertSpec(path: seq<string>, tokens: seq<Token>, attrs: seq<Attribute>, parseStmts: StmtParser): Option<Expr> {
    if IsGenPath(path) then
      match ParseGenMacro(tokens, parseStmts)
      case Ok(g) => Some(BuildSpec(g.(isAsync := path == ["async_gen"], attributes := g.attributes + attrs)))
      case Err(e) => Some(CompileError(e.message))
    else None
  }

  /** The diagnostics `convert_macro` emits on the way. */
  function ConvertDiagnostics(path: seq<string>, tokens: seq<Token>, parseStmts: StmtParser): seq<Diagnostic> {
    if IsGenPath(path) && parseStmts(tokens).Ok? then Diags(StmtsReturns(parseStmts(tokens).value)) else []
  }

  /** `GenMacro::convert_macro` (expand.rs:82-101). */
  method ConvertMacro(path: seq<string>, tokens: seq<Token>, attrs: seq<Attribute>, parseStmts: StmtParser)
    returns (r: Option<Expr>, emitted: seq<Diagnostic>)
    ensures r == ConvertSpec(path, tokens, attrs, parseStmts)
    ensures emitted == ConvertDiagnostics(path, tokens, parseStmts)
  {
    var isGen := path == ["gen"];
    var isAsyncGen := path == ["async_gen"];
    if isGen || isAsyncGen {
      var gen := ParseGenMacro(tokens, parseStmts);
      match gen
      case Ok(g) =>
        var e;
        e, emitted := Build(g.(isAsync := isAsyncGen, attributes := g.attributes + attrs));
        r := Some(e);
      case Err(e) =>
        r, emitted := Some(CompileError(e.message)), [];
    } else {
      r, emitted := None, [];
    }
  }

  /** `convert_macro` fires exactly for `gen` and `async_gen`; a body that
      does not parse becomes a compile error carrying the parser's message;
      otherwise the result is an async generator exactly for `async_gen`,
      its `?` never yields (`is_try_yield` stays false), and its size hint is
      the last `size_hint` among the macro's own attributes. */
  lemma ConvertMeans(path: seq<string>, tokens: seq<Token>, attrs: seq<Attribute>, parseStmts: StmtParser)
    ensures ConvertSpec(path, tokens, attrs, parseStmts).Some? <==> path in {["gen"], ["async_gen"]}
    ensures IsGenPath(path) && parseStmts(tokens).Err? ==>
              ConvertSpec(path, tokens, attrs, parseStmts) == Some(CompileError(parseStmts(tokens).error.message))
    ensures IsGenPath(path) && parseStmts(tokens).Ok? ==>
              var x := ConvertSpec(path, tokens, attrs, parseStmts).value;
              && x.Generator?
              && (x.expansion.wrapper == AsyncIteratorItemWrapper <==> path == ["async_gen"])
              && x.expansion.sizeHint == LastSizeHint(attrs)
              && x.expansion.body[0] == ExprStmt(Block(BodyVisitor(path == ["async_gen"], false).RewriteStmts(parseStmts(tokens).value)), false)
  {
    assert [] + attrs == attrs;
  }

  // ---------------------------------------------------------------------
  // GenMacroExpander (expand.rs:118-140)
  // ---------------------------------------------------------------------

  datatype Emitted<T> = Emitted(value: T, diagnostics: seq<Diagnostic>)

  /** A `gen!`/`async_gen!` invocation is replaced where it stands, and the
      replacement is not visited again; everything else is traversed. */
  function ExpandExpr(e: Expr, parseStmts: StmtParser): Emitted<Expr>
    decreases ExprSize(e), 1
  {
    match e
    case Macro(attrs, path, tokens) =>
      var c := ConvertSpec(path, tokens, attrs, parseStmts);
      if c.Some? then Emitted(c.value, ConvertDiagnostics(path, tokens, parseStmts)) else Emitted(e, [])
    case Return(v) =>
      if v.Some? then var x := ExpandExpr(v.value, parseStmts); Emitted(Return(Some(x.value)), x.diagnostics)
      else Emitted(e, [])
    case Yield(v) =>
      if v.Some? then var x := ExpandExpr(v.value, parseStmts); Emitted(Yield(Some(x.value)), x.diagnostics)
      else Emitted(e, [])
    case Await(b) => var x := ExpandExpr(b, parseStmts); Emitted(Await(x.value), x.diagnostics)
    case Try(b) => var x := ExpandExpr(b, parseStmts); Emitted(Try(x.value), x.diagnostics)
    case Block(ss) => var x := ExpandStmts(ss, parseStmts); Emitted(Block(x.value), x.diagnostics)
    case Node(k, cs) => var x := ExpandExprs(cs, parseStmts); Emitted(Node(k, x.value), x.diagnostics)
    case Generator(x) => var b := ExpandStmts(x.body, parseStmts); Emitted(Generator(x.(body := b.value)), b.diagnostics)
    case _ => Emitted(e, [])
  }

  function ExpandExprs(es: seq<Expr>, parseStmts: StmtParser): Emitted<seq<Expr>>
    decreases ExprsSize(es), 2
  {
    if es == [] then Emitted([], [])
    else
      var h := ExpandExpr(es[0], parseStmts);
      var t := ExpandExprs(es[1..], parseStmts);
      Emitted([h.value] + t.value, h.diagnostics + t.diagnostics)
  }

  function ExpandStmt(s: Stmt, parseStmts: StmtParser): Emitted<Stmt>
    decreases StmtSize(s), 1
  {
    match s
    case ItemMacro(attrs, path, tokens) =>
      var c := ConvertSpec(path, tokens, attrs, parseStmts);
      if c.Some? then Emitted(ExprStmt(c.value, false), ConvertDiagnostics(path, tokens, parseStmts)) else Emitted(s, [])
    case Local(p, init) =>
      if init.Some? then var x := ExpandExpr(init.value, parseStmts); Emitted(Local(p, Some(x.value)), x.diagnostics)
      else Emitted(s, [])
    case ExprStmt(x, semi) => var y := ExpandExpr(x, parseStmts); Emitted(ExprStmt(y.value, semi), y.diagnostics)
    case NestedFn(f) => var b := ExpandStmts(f.body, parseStmts); Emitted(NestedFn(f.(body := b.value)), b.diagnostics)
    case OtherItem(ts, ms) => var b := ExpandStmts(ms, parseStmts); Emitted(OtherItem(ts, b.value), b.diagnostics)
  }

  function ExpandStmts(ss: seq<Stmt>, parseStmts: StmtParser): Emitted<seq<Stmt>>
    decreases StmtsSize(ss), 2
  {
    if ss == [] then Emitted([], [])
    else
      var h := ExpandStmt(ss[0], parseStmts);
      var t := ExpandStmts(ss[1..], parseStmts);
      Emitted([h.value] + t.value, h.diagnostics + t.diagnostics)
  }

  /** `GenMacroExpander::visit_expr_mut` (expand.rs:131-139). */
  method ExpandExprMut(e: Expr, parseStmts: StmtParser) returns (r: Expr, emitted: seq<Diagnostic>)
    ensures Emitted(r, emitted) == ExpandExpr(e, parseStmts)
    decreases ExprSize(e), 1
  {
    match e
    case Macro(attrs, path, tokens) =>
      var c;
      c, emitted := ConvertMacro(path, tokens, attrs, parseStmts);
      r := if c.Some? then c.value else e;
    case Return(v) =>
      if v.Some? {
        var x;
        x, emitted := ExpandExprMut(v.value, parseStmts);
        r := Return(Some(x));
      } else {
        r, emitted := e, [];
      }
    case Yield(v) =>
      if v.Some? {
        var x;
        x, emitted := ExpandExprMut(v.value, parseStmts);
        r := Yield(Some(x));
      } else {
        r, emitted := e, [];
      }
    case Await(b) =>
      var x;
      x, emitted := ExpandExprMut(b, parseStmts);
      r := Await(x);
    case Try(b) =>
      var x;
      x, emitted := ExpandExprMut(b, parseStmts);
      r := Try(x);
    case Block(ss) =>
      var xs;
      xs, emitted := ExpandBlockMut(ss, parseStmts);
      r := Block(xs);
    case Node(k, cs) =>
      var xs;
      xs, emitted := ExpandExprsMut(cs, parseStmts);
      r := Node(k, xs);
    case Generator(x) =>
      var body;
      body, emitted := ExpandBlockMut(x.body, parseStmts);
      r := Generator(x.(body := body));
    case _ =>
      r, emitted := e, [];
  }

  method ExpandExprsMut(es: seq<Expr>, parseStmts: StmtParser) returns (r: seq<Expr>, emitted: seq<Diagnostic>)
    ensures Emitted(r, emitted) == ExpandExprs(es, parseStmts)
    decreases ExprsSize(es), 2
  {
    r, emitted := [], [];
    var i := 0;
    while i < |es|
      invariant 0 <= i <= |es|
      invariant r + ExpandExprs(es[i..], parseStmts).value == ExpandExprs(es, parseStmts).value
      invariant emitted + ExpandExprs(es[i..], parseStmts).diagnostics == ExpandExprs(es, parseStmts).diagnostics
    {
      ExprsElementSize(es, i);
      var x, d := ExpandExprMut(es[i], parseStmts);
      assert es[i..][1..] == es[i + 1..];
      AppendAssoc3(r, [x], ExpandExprs(es[i + 1..], parseStmts).value);
      AppendAssoc3(emitted, d, ExpandExprs(es[i + 1..], parseStmts).diagnostics);
      r, emitted := r + [x], emitted + d;
      i := i + 1;
    }
    assert es[i..] == [];
    assert ExpandExprs(es[i..], parseStmts) == Emitted([], []);
    assert r + [] == r && emitted + [] == emitted;
  }

  /** `GenMacroExpander::visit_stmt_mut` (expand.rs:121-129). */
  method ExpandStmtMut(s: Stmt, parseStmts: StmtParser) returns (r: Stmt, emitted: seq<Diagnostic>)
    ensures Emitted(r, emitted) == ExpandStmt(s, parseStmts)
    decreases StmtSize(s), 1
  {
    match s
    case ItemMacro(attrs, path, tokens) =>
      var c;
      c, emitted := ConvertMacro(path, tokens, attrs, parseStmts);
      r := if c.Some? then ExprStmt(c.value, false) else s;
    case Local(p, init) =>
      if init.Some? {
        var x;
        x, emitted := ExpandExprMut(init.value, parseStmts);
        r := Local(p, Some(x));
      } else {
        r, emitted := s, [];
      }
    case ExprStmt(x, semi) =>
      var y;
      y, emitted := ExpandExprMut(x, parseStmts);
      r := ExprStmt(y, semi);
    case NestedFn(f) =>
      var body;
      body, emitted := ExpandBlockMut(f.body, parseStmts);
      r := NestedFn(f.(body := body));
    case OtherItem(ts, ms) =>
      var members;
      members, emitted := ExpandBlockMut(ms, parseStmts);
      r := OtherItem(ts, members);
  }

  method ExpandBlockMut(ss: seq<Stmt>, parseStmts: StmtParser) returns (r: seq<Stmt>, emitted: seq<Diagnostic>)
    ensures Emitted(r, emitted) == ExpandStmts(ss, parseStmts)
    decreases StmtsSize(ss), 2
  {
    r, emitted := [], [];
    var i := 0;
    while i < |ss|
      invariant 0 <= i <= |ss|
      invariant r + ExpandStmts(ss[i..], parseStmts).value == ExpandStmts(ss, parseStmts).value
      invariant emitted + ExpandStmts(ss[i..], parseStmts).diagnostics == ExpandStmts(ss, parseStmts).diagnostics
    {
      StmtsElementSize(ss, i);
      var x, d := ExpandStmtMut(ss[i], parseStmts);
      assert ss[i..][1..] == ss[i + 1..];
      AppendAssoc3(r, [x], ExpandStmts(ss[i + 1..], parseStmts).value);
      AppendAssoc3(emitted, d, ExpandStmts(ss[i + 1..], parseStmts).diagnostics);
      r, emitted := r + [x], emitted + d;
      i := i + 1;
    }
    assert ss[i..] == [];
    assert ExpandStmts(ss[i..], parseStmts) == Emitted([], []);
    assert r + [] == r && emitted + [] == emitted;
  }

  /** `visit_item_fn_mut` on an ordinary function: its body is expanded. */
  method ExpandItemFn(f: ItemFn, parseStmts: StmtParser) returns (r: ItemFn, emitted: seq<Diagnostic>)
    ensures r == f.(body := ExpandStmts(f.body, parseStmts).value)
    ensures emitted == ExpandStmts(f.body, parseStmts).diagnostics
  {
    var body;
    body, emitted := ExpandBlockMut(f.body, parseStmts);
    r := f.(body := body);
  }

  // No `gen!`/`async_gen!` invocation left where the expander can see it.
  // With `deep` false the bodies of emitted generators are not looked into:
  // that is what one pass guarantees. With `deep` true they are, as a
  // further pass would.

  predicate GenFreeExpr(e: Expr, deep: bool)
    decreases ExprSize(e), 1
  {
    match e
    case Macro(_, path, _) => !IsGenPath(path)
    case Return(v) => v.Some? ==> GenFreeExpr(v.value, deep)
    case Yield(v) => v.Some? ==> GenFreeExpr(v.value, deep)
    case Await(b) => GenFreeExpr(b, deep)
    case Try(b) => GenFreeExpr(b, deep)
    case Block(ss) => GenFreeStmts(ss, deep)
    case Node(_, cs) => GenFreeExprs(cs, deep)
    case Generator(x) => deep ==> GenFreeStmts(x.body, deep)
    case _ => true
  }

  predicate GenFreeExprs(es: seq<Expr>, deep: bool)
    decreases ExprsSize(es), 2
  {
    es == [] || (GenFreeExpr(es[0], deep) && GenFreeExprs(es[1..], deep))
  }

  predicate GenFreeStmt(s: Stmt, deep: bool)
    decreases StmtSize(s), 1
  {
    match s
    case ItemMacro(_, path, _) => !IsGenPath(path)
    case Local(_, init) => init.Some? ==> GenFreeExpr(init.value, deep)
    case ExprStmt(x, _) => GenFreeExpr(x, deep)
    case NestedFn(f) => GenFreeStmts(f.body, deep)
    case OtherItem(_, ms) => GenFreeStmts(ms, deep)
  }

  predicate GenFreeStmts(ss: seq<Stmt>, deep: bool)
    decreases StmtsSize(ss), 2
  {
    ss == [] || (GenFreeStmt(ss[0], deep) && GenFreeStmts(ss[1..], deep))
  }

  lemma {:induction false} ExpandExprGenFree(e: Expr, parseStmts: StmtParser)
    ensures GenFreeExpr(ExpandExpr(e, parseStmts).value, false)
    decreases ExprSize(e), 1
  {
    match e
    case Return(v) => if v.Some? { ExpandExprGenFree(v.value, parseStmts); }
    case Yield(v) => if v.Some? { ExpandExprGenFree(v.value, parseStmts); }
    case Await(b) => ExpandExprGenFree(b, parseStmts);
    case Try(b) => ExpandExprGenFree(b, parseStmts);
    case Block(ss) => ExpandStmtsGenFree(ss, parseStmts);
    case Node(_, cs) => ExpandExprsGenFree(cs, parseStmts);
    case _ =>
  }

  lemma {:induction false} ExpandExprsGenFree(es: seq<Expr>, parseStmts: StmtParser)
    ensures GenFreeExprs(ExpandExprs(es, parseStmts).value, false)
    decreases ExprsSize(es), 2
  {
    if es != [] {
      ExpandExprGenFree(es[0], parseStmts);
      ExpandExprsGenFree(es[1..], parseStmts);
      assert ExpandExprs(es, parseStmts).value[1..] == ExpandExprs(es[1..], parseStmts).value;
    }
  }

  lemma {:induction false} ExpandStmtGenFree(s: Stmt, parseStmts: StmtParser)
    ensures GenFreeStmt(ExpandStmt(s, parseStmts).value, false)
    decreases StmtSize(s), 1
  {
    match s
    case Local(_, init) => if init.Some? { ExpandExprGenFree(init.value, parseStmts); }
    case ExprStmt(x, _) => ExpandExprGenFree(x, parseStmts);
    case NestedFn(f) => ExpandStmtsGenFree(f.body, parseStmts);
    case OtherItem(_, ms) => ExpandStmtsGenFree(ms, parseStmts);
    case _ =>
  }

  /** After expansion no `gen!`/`async_gen!` invocation is left outside the
      generators the pass emitted. */
  lemma {:induction false} ExpandStmtsGenFree(ss: seq<Stmt>, parseStmts: StmtParser)
    ensures GenFreeStmts(ExpandStmts(ss, parseStmts).value, false)
    decreases StmtsSize(ss), 2
  {
    if ss != [] {
      ExpandStmtGenFree(ss[0], parseStmts);
      ExpandStmtsGenFree(ss[1..], parseStmts);
      assert ExpandStmts(ss, parseStmts).value[1..] == ExpandStmts(ss[1..], parseStmts).value;
    }
  }

  lemma {:induction false} GenFreeExprKept(e: Expr, parseStmts: StmtParser)
    requires GenFreeExpr(e, true)
    ensures ExpandExpr(e, parseStmts) == Emitted(e, [])
    decreases ExprSize(e), 1
  {
    match e
    case Return(v) => if v.Some? { GenFreeExprKept(v.value, parseStmts); }
    case Yield(v) => if v.Some? { GenFreeExprKept(v.value, parseStmts); }
    case Await(b) => GenFreeExprKept(b, parseStmts);
    case Try(b) => GenFreeExprKept(b, parseStmts);
    case Block(ss) => GenFreeStmtsKept(ss, parseStmts);
    case Node(_, cs) => GenFreeExprsKept(cs, parseStmts);
    case Generator(x) => GenFreeStmtsKept(x.body, parseStmts);
    case _ =>
  }

  lemma {:induction false} GenFreeExprsKept(es: seq<Expr>, parseStmts: StmtParser)
    requires GenFreeExprs(es, true)
    ensures ExpandExprs(es, parseStmts) == Emitted(es, [])
    decreases ExprsSize(es), 2
  {
    if es != [] {
      GenFreeExprKept(es[0], parseStmts);
      GenFreeExprsKept(es[1..], parseStmts);
      assert [es[0]] + es[1..] == es;
    }
  }

  lemma {:induction false} GenFreeStmtKept(s: Stmt, parseStmts: StmtParser)
    requires GenFreeStmt(s, true)
    ensures ExpandStmt(s, parseStmts) == Emitted(s, [])
    decreases StmtSize(s), 1
  {
    match s
    case Local(_, init) => if init.Some? { GenFreeExprKept(init.value, parseStmts); }
    case ExprStmt(x, _) => GenFreeExprKept(x, parseStmts);
    case NestedFn(f) => GenFreeStmtsKept(f.body, parseStmts);
    case OtherItem(_, ms) => GenFreeStmtsKept(ms, parseStmts);
    case _ =>
  }

  /** A body without `gen!`/`async_gen!`, also inside the generators emitted
      earlier, is left exactly as it is, with no diagnostic. */
  lemma {:induction false} GenFreeStmtsKept(ss: seq<Stmt>, parseStmts: StmtParser)
    requires GenFreeStmts(ss, true)
    ensures ExpandStmts(ss, parseStmts) == Emitted(ss, [])
    decreases StmtsSize(ss), 2
  {
    if ss != [] {
      GenFreeStmtKept(ss[0], parseStmts);
      GenFreeStmtsKept(ss[1..], parseStmts);
      assert [ss[0]] + ss[1..] == ss;
    }
  }

  /** The expander enters items nested in a body: a `gen!` statement in a
      method of a nested `impl` is converted where it stands. */
  lemma NestedItemExpanded(ts: seq<Token>, f: ItemFn, tokens: seq<Token>, parseStmts: StmtParser)
    requires f.body == [ItemMacro([], ["gen"], tokens)]
    ensures ExpandStmt(OtherItem(ts, [NestedFn(f)]), parseStmts).value
            == OtherItem(ts, [NestedFn(f.(body := [ExprStmt(ConvertSpec(["gen"], tokens, [], parseStmts).value, false)]))])
  {
    assert f.body[1..] == [] && [NestedFn(f)][1..] == [];
    assert IsGenPath(["gen"]);
    var c := ConvertSpec(["gen"], tokens, [], parseStmts);
    assert c.Some?;
    assert ExpandStmt(f.body[0], parseStmts).value == ExprStmt(c.value, false);
    assert ExpandStmts(f.body, parseStmts).value == [ExprStmt(c.value, false)];
    var g := NestedFn(f);
    assert ExpandStmt(g, parseStmts).value == NestedFn(f.(body := [ExprStmt(c.value, false)]));
    assert ExpandStmts([g], parseStmts).value == [ExpandStmt(g, parseStmts).value];
  }

  /** The replacement is not visited: a `gen!` nested in a `gen!` body stays
      an invocation inside the emitted generator. */
  lemma NestedGenNotExpanded(tokens: seq<Token>, parseStmts: StmtParser)
    requires parseStmts(tokens) == Ok([ExprStmt(Macro([], ["gen"], []), false)])
    ensures ExpandStmts([ItemMacro([], ["gen"], tokens)], parseStmts).value
            == [ExprStmt(Generator(Expansion(DefaultSizeHint, MoveClosure,
                                             [ExprStmt(Block([ExprStmt(Macro([], ["gen"], []), false)]), false), Tail],
                                             IteratorItemWrapper)), false)]
  {
    var inner := [ExprStmt(Macro([], ["gen"], []), false)];
    var v := BodyVisitor(false, false);
    assert v.RewriteStmts(inner) == inner by {
      assert v.LoweredStmts(inner) by {
        assert v.LoweredStmts(inner[1..]);
      }
      v.LoweredStmtsFixed(inner);
    }
  }

  /** The expander is not idempotent: the `gen!` that one pass leaves inside
      an emitted generator is converted by a second pass, which enters the
      emitted block like any other syntax. */
  lemma SecondPassConvertsNested(tokens: seq<Token>, parseStmts: StmtParser)
    requires parseStmts(tokens) == Ok([ExprStmt(Macro([], ["gen"], []), false)])
    ensures var once := ExpandStmts([ItemMacro([], ["gen"], tokens)], parseStmts).value;
            ExpandStmts(once, parseStmts).value != once
  {
    NestedGenNotExpanded(tokens, parseStmts);
    var inner := Macro([], ["gen"], []);
    var block := [ExprStmt(Block([ExprStmt(inner, false)]), false), Tail];
    var x := Expansion(DefaultSizeHint, MoveClosure, block, IteratorItemWrapper);
    var once := [ExprStmt(Generator(x), false)];
    var converted := ExpandExpr(inner, parseStmts).value;
    assert converted != inner;
    assert ExpandStmts(block, parseStmts).value[0] == ExprStmt(Block([ExprStmt(converted, false)]), false) by {
      assert ExpandStmts([ExprStmt(inner, false)], parseStmts).value == [ExprStmt(converted, false)];
    }
    var twice := Generator(x.(body := ExpandStmts(block, parseStmts).value));
    assert ExpandExpr(Generator(x), parseStmts).value == twice;
    assert ExpandStmts(once, parseStmts).value == [ExprStmt(twice, false)];
  }
}
