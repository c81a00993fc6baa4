/** The syntax trees the macro works on: attributes, visibilities, types,
    generics and arguments of the item signature, the expression and
    statement shapes the body rewriter distinguishes, and the abstract form
    of the code it emits. */
module Syntax {
  import opened Tokens

  /** `#[path tokens]`; `tokens` is everything after the path. */
  datatype Attribute = Attribute(path: seq<string>, tokens: seq<Token>)

  /** `attr.path.is_ident("size_hint")`. */
  predicate IsSizeHint(a: Attribute) {
    a.path == ["size_hint"]
  }

  datatype Visibility = Inherited | Public | CrateVis | Restricted(scope: seq<Token>)

  datatype PathSegment = PathSegment(ident: string, arguments: seq<Token>)

  /** Types, as far as the macro looks at them: a path (with or without a
      qualified self and a leading `::`), a tuple, or anything else kept as
      its tokens. */
  datatype Type =
    | Path(qself: bool, leadingColon: bool, segments: seq<PathSegment>)
    | Tuple(elems: seq<Type>)
    | Other(tokens: seq<Token>)

  datatype GenericParam =
    | LifetimeParam(name: string, bounds: seq<Token>)
    | TypeOrConstParam(tokens: seq<Token>)

  datatype Generics = Generics(params: seq<GenericParam>)

  /** A function argument: a `self` receiver or a typed pattern. */
  datatype FnArg =
    | Receiver(attrs: seq<Attribute>, reference: bool, lifetime: Option<string>, mutable: bool)
    | Typed(attrs: seq<Attribute>, pat: seq<Token>, ty: Type)

  /** Literal values. They let the run-time model give meaning to straight-line
      bodies: `Ok`/`Err` and `Some`/`None` for `?`, poll results for streams,
      and a future that is pending for a number of polls before it is ready. */
  datatype Value =
    | UnitVal
    | IntVal(i: int)
    | OkVal(ok: Value)
    | ErrVal(err: Value)
    | SomeVal(some: Value)
    | NoneVal
    | ReadyVal(ready: Value)
    | PendingVal
    | FutureVal(pendingPolls: nat, output: Value)

  /** The macros the rewriter substitutes for `?`, `yield` and `.await`
      (`iterator_item::gen_try!` and so on). */
  datatype LoweringMacro =
    | GenTry
    | AsyncGenTry
    | GenTryBare
    | AsyncGenTryBare
    | AsyncGenYield
    | AsyncGenAwait

  datatype Expr =
    | Return(value: Option<Expr>)
    | Yield(value: Option<Expr>)
    | Await(base: Expr)
    | Try(operand: Expr)
      /** A macro invocation `path!(tokens)`; its tokens are opaque. */
    | Macro(attrs: seq<Attribute>, path: seq<string>, tokens: seq<Token>)
    | Block(stmts: seq<Stmt>)
      /** Every other expression with sub-expressions (calls, operators,
          `if`, loops, closures, ...): only its children matter here. */
    | Node(kind: string, children: seq<Expr>)
    | Lit(lit: Value)
    | Var(name: string)
      /** An emitted `iterator_item::<form>!(arg)` call: opaque like any macro. */
    | Lowered(form: LoweringMacro, arg: Expr)
      /** The block `GenMacro::build` emits for one generator. */
    | Generator(expansion: Expansion)
      /** `{ compile_error!(message) }` */
    | CompileError(message: string)

  datatype Stmt =
    | Local(pat: seq<Token>, init: Option<Expr>)
    | ExprStmt(expr: Expr, semi: bool)
    | ItemMacro(attrs: seq<Attribute>, path: seq<string>, tokens: seq<Token>)
    | NestedFn(item: ItemFn)
      /** Any other item (`impl`, `trait`, `mod`, `const`, `static`, ...):
          its own tokens, and what is nested in it that the syntax visitors
          still enter (the methods of an `impl` as nested functions, the
          items of a `mod`, the initializer of a `const`), as statements. */
    | OtherItem(tokens: seq<Token>, members: seq<Stmt>)

  /** An ordinary function: attributes, visibility, the signature kept as
      tokens, and the body. */
  datatype ItemFn = ItemFn(attrs: seq<Attribute>, vis: Visibility, sig: seq<Token>, body: seq<Stmt>)

  /** `move ||` for iterators, `static move |mut __stream_ctx|` for streams. */
  datatype ClosureHead = MoveClosure | StaticMoveCtxClosure

  datatype Wrapper = IteratorItemWrapper | AsyncIteratorItemWrapper

  /** `{ let size_hint = <sizeHint>; let gen = <head> { <body> }; <wrapper> { gen, size_hint } }`;
      `body` already ends with the synthetic tail. */
  datatype Expansion = Expansion(sizeHint: seq<Token>, head: ClosureHead, body: seq<Stmt>, wrapper: Wrapper)

  datatype Diagnostic = Diagnostic(message: string, help: Option<string>)

  /** The parser that syn provides for the statements inside a block
      (`Block::parse_within`); the model takes it as a parameter. */
  type StmtParser = seq<Token> -> Result<seq<Stmt>>

  // Size measures for the mutually recursive traversals.

  function ExprSize(e: Expr): (n: nat)
    ensures n >= 1
  {
    match e
    case Return(v) => if v.Some? then 1 + ExprSize(v.value) else 1
    case Yield(v) => if v.Some? then 1 + ExprSize(v.value) else 1
    case Await(b) => 1 + ExprSize(b)
    case Try(x) => 1 + ExprSize(x)
    case Block(ss) => 1 + StmtsSize(ss)
    case Node(_, cs) => 1 + ExprsSize(cs)
    case Lowered(_, a) => 1 + ExprSize(a)
    case Generator(x) => 1 + StmtsSize(x.body)
    case _ => 1
  }

  function ExprsSize(es: seq<Expr>): nat {
    if es == [] then 0 else ExprSize(es[0]) + ExprsSize(es[1..])
  }

  function StmtSize(s: Stmt): (n: nat)
    ensures n >= 1
  {
    match s
    case Local(_, init) => if init.Some? then 1 + ExprSize(init.value) else 1
    case ExprStmt(e, _) => 1 + ExprSize(e)
    case NestedFn(f) => 1 + StmtsSize(f.body)
    case OtherItem(_, ms) => 1 + StmtsSize(ms)
    case _ => 1
  }

  function StmtsSize(ss: seq<Stmt>): nat {
    if ss == [] then 0 else StmtSize(ss[0]) + StmtsSize(ss[1..])
  }

  lemma {:induction false} ExprsElementSize(es: seq<Expr>, i: nat)
    requires i < |es|
    ensures ExprSize(es[i]) <= ExprsSize(es)
  {
    if i > 0 {
      ExprsElementSize(es[1..], i - 1);
    }
  }

  lemma {:induction false} StmtsElementSize(ss: seq<Stmt>, i: nat)
    requires i < |ss|
    ensures StmtSize(ss[i]) <= StmtsSize(ss)
  {
    if i > 0 {
      StmtsElementSize(ss[1..], i - 1);
    }
  }
}
