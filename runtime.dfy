/** The runtime side of the crate (src/lib.rs): the wrappers that turn a
    generator into an `Iterator` or a `Stream`, and what the lowering macros
    `gen_try!`, `async_gen_try!`, `async_gen_yield!` and `async_gen_await!`
    do when the generator runs. A generator is seen from outside as the
    sequence of values it yields followed by completion; an interpreter runs
    the straight-line bodies that `GenMacro::build` emits and produces that
    sequence, so the rewrite table can be tied to what a caller observes. */
module Runtime {
  import opened Tokens
  import opened Syntax
  import Expand

  // ---------------------------------------------------------------------
  // Generators and the two wrappers (src/lib.rs:92-168)
  // ---------------------------------------------------------------------

  datatype GeneratorState = Yielded(item: Value) | Complete

  datatype Poll<T> = Ready(value: T) | Pending

  /** A generator as its callers see it: the values it will still yield,
      in order, and whether it has already completed. */
  class Generator {
    var remaining: seq<Value>
    var completed: bool

    constructor (trace: seq<Value>)
      ensures remaining == trace && !completed
    {
      remaining := trace;
      completed := false;
    }

    /** `Generator::resume`. Resuming a completed generator panics, so the
        callers must not do it. */
    method Resume() returns (s: GeneratorState)
      requires !completed
      modifies this
      ensures old(remaining) == [] ==> s == Complete && completed && remaining == []
      ensures old(remaining) != [] ==> s == Yielded(old(remaining)[0]) && !completed && remaining == old(remaining)[1..]
    {
      if remaining == [] {
        s := Complete;
        completed := true;
      } else {
        s := Yielded(remaining[0]);
        remaining := remaining[1..];
      }
    }
  }

  /** `(lower, upper)` as `Iterator::size_hint` returns it. */
  type SizeHint = (nat, Option<nat>)

  /** `IteratorItem`: the generator and the size hint computed when the
      function was called. */
  class IteratorItem {
    const gen: Generator
    var sizeHint: SizeHint

    constructor (gen: Generator, sizeHint: SizeHint)
      ensures this.gen == gen && this.sizeHint == sizeHint
    {
      this.gen := gen;
      this.sizeHint := sizeHint;
    }

    /** `Iterator::next` (src/lib.rs:100-105): a yielded value is the next
        item, completion is the end of the iteration. */
    method Next() returns (r: Option<Value>)
      requires !gen.completed
      modifies gen
      ensures old(gen.remaining) == [] ==> r == None && gen.completed && gen.remaining == []
      ensures old(gen.remaining) != [] ==> r == Some(old(gen.remaining)[0]) && !gen.completed
                                           && gen.remaining == old(gen.remaining)[1..]
      ensures SizeHint() == old(SizeHint())
    {
      var s := gen.Resume();
      match s {
        case Yielded(x) => r := Some(x);
        case Complete => r := None;
      }
    }

    /** `Iterator::size_hint` (src/lib.rs:107-109). */
    function SizeHint(): (h: SizeHint)
      reads this
      ensures h == sizeHint
    {
      sizeHint
    }

    /** Drains the iterator the way `collect` does: the items are exactly the
        values the generator yields, in order. */
    method Collect() returns (items: seq<Value>)
      requires !gen.completed
      modifies gen
      ensures items == old(gen.remaining) && gen.completed && gen.remaining == []
      ensures SizeHint() == old(SizeHint())
    {
      items := [];
      var done := false;
      while !done
        invariant done <==> gen.completed
        invariant done ==> gen.remaining == []
        invariant items + gen.remaining == old(gen.remaining)
        decreases |gen.remaining| + (if done then 0 else 1)
      {
        var r := Next();
        match r {
          case Some(x) => items := items + [x];
          case None =>
            assert items + [] == items;
            done := true;
        }
      }
      assert items + gen.remaining == items;
    }
  }

  /** Every value a stream generator yields is a `Poll`. */
  predicate PollTrace(t: seq<Value>) {
    forall i :: 0 <= i < |t| ==> t[i].ReadyVal? || t[i].PendingVal?
  }

  /** The items a stream delivers to `next().await`: the payloads of the
      ready values, in order; a pending value delivers nothing. */
  function StreamItems(t: seq<Value>): (r: seq<Value>)
    ensures |r| <= |t|
  {
    if t == [] then []
    else if t[0].ReadyVal? then [t[0].ready] + StreamItems(t[1..])
    else StreamItems(t[1..])
  }

  lemma {:induction false} StreamItemsAppend(a: seq<Value>, b: seq<Value>)
    ensures StreamItems(a + b) == StreamItems(a) + StreamItems(b)
  {
    if a == [] {
      assert a + b == b;
    } else {
      assert (a + b)[1..] == a[1..] + b;
      StreamItemsAppend(a[1..], b);
    }
  }

  /** `AsyncIteratorItem`: the stream wrapper. */
  class AsyncIteratorItem {
    const gen: Generator
    var sizeHint: SizeHint

    constructor (gen: Generator, sizeHint: SizeHint)
      ensures this.gen == gen && this.sizeHint == sizeHint
    {
      this.gen := gen;
      this.sizeHint := sizeHint;
    }

    /** `Stream::poll_next` (src/lib.rs:154-163): a ready value is the next
        item, a pending value is a pending poll, completion ends the stream.
        The task context handed to the generator is modelled by the
        interpreter below, not here. */
    method PollNext() returns (r: Poll<Option<Value>>)
      requires !gen.completed && PollTrace(gen.remaining)
      modifies gen
      ensures old(gen.remaining) == [] ==> r == Ready(None) && gen.completed && gen.remaining == []
      ensures old(gen.remaining) != [] && old(gen.remaining)[0].ReadyVal?
              ==> r == Ready(Some(old(gen.remaining)[0].ready))
      ensures old(gen.remaining) != [] && old(gen.remaining)[0].PendingVal? ==> r == Pending
      ensures old(gen.remaining) != [] ==> !gen.completed && gen.remaining == old(gen.remaining)[1..]
      ensures SizeHint() == old(SizeHint())
    {
      var s := gen.Resume();
      match s {
        case Yielded(p) =>
          if p.ReadyVal? {
            r := Ready(Some(p.ready));
          } else {
            r := Pending;
          }
        case Complete => r := Ready(None);
      }
    }

    /** `Stream::size_hint` (src/lib.rs:165-167). */
    function SizeHint(): (h: SizeHint)
      reads this
      ensures h == sizeHint
    {
      sizeHint
    }

    /** Polls until the stream ends, as an executor driving `next().await`
        does: the items are the payloads of the ready values, in order. */
    method Collect() returns (items: seq<Value>)
      requires !gen.completed && PollTrace(gen.remaining)
      modifies gen
      ensures items == StreamItems(old(gen.remaining)) && gen.completed && gen.remaining == []
      ensures SizeHint() == old(SizeHint())
    {
      items := [];
      var done := false;
      while !done
        invariant done <==> gen.completed
        invariant done ==> gen.remaining == []
        invariant PollTrace(gen.remaining)
        invariant items + StreamItems(gen.remaining) == StreamItems(old(gen.remaining))
        decreases |gen.remaining| + (if done then 0 else 1)
      {
        ghost var before := gen.remaining;
        var r := PollNext();
        match r {
          case Ready(o) =>
            if o.Some? {
              assert StreamItems(before) == [o.value] + StreamItems(gen.remaining);
              items := items + [o.value];
            } else {
              assert items + [] == items;
              done := true;
            }
          case Pending =>
        }
      }
      assert items + [] == items;
    }
  }

  // ---------------------------------------------------------------------
  // Running a lowered body
  // ---------------------------------------------------------------------

  /** `Try::branch` for `Result` and `Option`. */
  datatype ControlFlow = Continue(ok: Value) | Break(residual: Value)

  /** `Try::branch`; `FromResidual::from_residual` turns the residual back
      into `Err(e)` or `None` (the error conversion is the identity here). */
  function Branch(v: Value): (r: Option<ControlFlow>)
    ensures r.Some? <==> v.OkVal? || v.ErrVal? || v.SomeVal? || v.NoneVal?
    ensures v.OkVal? ==> r == Some(Continue(v.ok))
    ensures v.SomeVal? ==> r == Some(Continue(v.some))
    ensures r.Some? && r.value.Break? <==> v.ErrVal? || v.NoneVal?
    ensures r.Some? && r.value.Break? ==> r.value.residual == v
  {
    match v
    case OkVal(x) => Some(Continue(x))
    case SomeVal(x) => Some(Continue(x))
    case ErrVal(_) => Some(Break(v))
    case NoneVal => Some(Break(v))
    case _ => None
  }

  /** How a run stopped: still running, returned (the generator completes),
      or reached a construct the interpreter does not cover. */
  datatype Ending = Running | Returned | Unsupported

  /** Which task context `async_gen_await!` polls with: `AsWritten` is the
      macro at src/lib.rs:210-226 (the context captured before its loop, and
      `async_gen_yield!` dropping the context it is resumed with);
      `Refreshed` re-reads `__stream_ctx` at every poll and rebinds it at
      every yield. */
  datatype Contexts = AsWritten | Refreshed

  /** One poll of a future: the context it was handed, and the context of
      the `poll_next` call in progress (the n-th resume gets context n). */
  datatype PollRecord = PollRecord(used: nat, current: nat)

  /** A running generator: what it has yielded, the value of
      `__stream_ctx`, the polls made so far, and how the run stands. While
      the generator runs, it is serving resume number `|yielded|`. */
  datatype Machine = Machine(yielded: seq<Value>, streamCtx: nat, polls: seq<PollRecord>, ending: Ending)

  /** The first resume passes context 0 as the closure argument. */
  const Start := Machine([], 0, [], Running)

  /** `yield v`: the caller receives `v`; the next resume hands in a fresh
      context, which `rebind` stores in `__stream_ctx`. */
  function Suspend(m: Machine, v: Value, rebind: bool): Machine {
    m.(yielded := m.yielded + [v], streamCtx := if rebind then |m.yielded| + 1 else m.streamCtx)
  }

  function Pendings(n: nat): seq<Value> {
    seq(n, _ => PendingVal)
  }

  /** The loop of `async_gen_await!` on a future that is pending for
      `pending` more polls and then ready with `out`. Each pending poll yielded
      `Poll::Pending` and stores the resume value in `__stream_ctx`. */
  function AwaitLoop(pending: nat, out: Value, c: Contexts, captured: nat, m: Machine): (r: (Value, Machine))
    decreases pending
  {
    var used := if c == AsWritten then captured else m.streamCtx;
    var polled := m.(polls := m.polls + [PollRecord(used, |m.yielded|)]);
    if pending == 0 then (out, polled)
    else AwaitLoop(pending - 1, out, c, captured, Suspend(polled, PendingVal, true))
  }

  /** What an emitted lowering macro does with the value of its argument
      (src/lib.rs:172-226; the two `_bare` forms return early without
      yielding). */
  function ApplyLowered(form: LoweringMacro, v: Value, c: Contexts, m: Machine): (Value, Machine)
    requires m.ending == Running
  {
    match form
    case AsyncGenYield => (UnitVal, Suspend(m, ReadyVal(v), c == Refreshed))
    case AsyncGenAwait =>
      if v.FutureVal? then AwaitLoop(v.pendingPolls, v.output, c, m.streamCtx, m)
      else (UnitVal, m.(ending := Unsupported))
    case _ =>
      match Branch(v)
      case None => (UnitVal, m.(ending := Unsupported))
      case Some(Continue(ok)) => (ok, m)
      case Some(Break(res)) =>
        if form == GenTry then (UnitVal, Suspend(m, res, c == Refreshed).(ending := Returned))
        else if form == AsyncGenTry then (UnitVal, Suspend(m, ReadyVal(res), c == Refreshed).(ending := Returned))
        else (UnitVal, m.(ending := Returned))
  }

  /** Evaluates a lowered expression: literals, bare `return`, plain
      `yield`, blocks and the lowering macros. */
  function ExecExpr(e: Expr, c: Contexts, m: Machine): (Value, Machine)
    requires m.ending == Running
    decreases ExprSize(e), 1
  {
    match e
    case Lit(v) => (v, m)
    case Return(v) =>
      if v.None? then (UnitVal, m.(ending := Returned)) else (UnitVal, m.(ending := Unsupported))
    case Yield(v) =>
      if v.None? then (UnitVal, Suspend(m, UnitVal, c == Refreshed))
      else
        var a := ExecExpr(v.value, c, m);
        if a.1.ending != Running then (UnitVal, a.1) else (UnitVal, Suspend(a.1, a.0, c == Refreshed))
    case Lowered(form, arg) =>
      var a := ExecExpr(arg, c, m);
      if a.1.ending != Running then (UnitVal, a.1) else ApplyLowered(form, a.0, c, a.1)
    case Block(ss) => (UnitVal, ExecStmts(ss, c, m))
    case _ => (UnitVal, m.(ending := Unsupported))
  }

  /** Runs one statement; a nested item declares something and does not run. */
  function ExecStmt(s: Stmt, c: Contexts, m: Machine): Machine
    requires m.ending == Running
    decreases StmtSize(s), 1
  {
    match s
    case Local(_, init) => if init.Some? then ExecExpr(init.value, c, m).1 else m
    case ExprStmt(e, _) => ExecExpr(e, c, m).1
    case ItemMacro(_, _, _) => m.(ending := Unsupported)
    case _ => m
  }

  function ExecStmts(ss: seq<Stmt>, c: Contexts, m: Machine): Machine
    decreases StmtsSize(ss), 2
  {
    if ss == [] || m.ending != Running then m
    else ExecStmts(ss[1..], c, ExecStmt(ss[0], c, m))
  }

  /** `async_gen_await!` as the loop it is (src/lib.rs:210-226): poll, and
      while the future is pending yield `Poll::Pending` and take the resume
      value as the new `__stream_ctx`. */
  method AwaitMut(future: Value, c: Contexts, m: Machine) returns (x: Value, m': Machine)
    requires m.ending == Running && future.FutureVal?
    ensures (x, m') == ApplyLowered(AsyncGenAwait, future, c, m)
  {
    var ctx := m.streamCtx;
    var pending := future.pendingPolls;
    m' := m;
    while true
      invariant AwaitLoop(pending, future.output, c, ctx, m') == AwaitLoop(future.pendingPolls, future.output, c, ctx, m)
      decreases pending
    {
      var used := if c == AsWritten then ctx else m'.streamCtx;
      m' := m'.(polls := m'.polls + [PollRecord(used, |m'.yielded|)]);
      if pending == 0 {
        x := future.output;
        return;
      }
      pending := pending - 1;
      m' := Suspend(m', PendingVal, true);
    }
  }

  // ---------------------------------------------------------------------
  // The meaning of a source body
  // ---------------------------------------------------------------------

  /** What a caller has observed so far and how the body stands. */
  datatype Outcome = Outcome(items: seq<Value>, ending: Ending)

  /** What the caller receives for `yield x`: `x` from an iterator,
      `Poll::Ready(x)` from a stream. */
  function Emit(mode: Expand.BodyVisitor, x: Value): Value {
    if mode.isAsync then ReadyVal(x) else x
  }

  /** The meaning the crate gives a source body, before any rewriting:
      `yield x` hands `x` to the caller, `return` ends the sequence, `?` on a
      failure hands the failure to the caller once and ends the sequence when
      the yield type is `Result`/`Option` and ends it silently otherwise, and
      in a stream `.await` on a pending future makes the stream pending
      (src/lib.rs:9-19, iterator_item_macros/src/expand.rs:207). A
      `return e` does not compile, so it has no meaning. */
  function EvalExpr(e: Expr, mode: Expand.BodyVisitor, o: Outcome): (Value, Outcome)
    requires o.ending == Running
    decreases ExprSize(e), 1
  {
    match e
    case Lit(v) => (v, o)
    case Return(v) =>
      if v.None? then (UnitVal, o.(ending := Returned)) else (UnitVal, o.(ending := Unsupported))
    case Yield(v) =>
      if v.None? then (UnitVal, o.(items := o.items + [Emit(mode, UnitVal)]))
      else
        var a := EvalExpr(v.value, mode, o);
        if a.1.ending != Running then (UnitVal, a.1)
        else (UnitVal, a.1.(items := a.1.items + [Emit(mode, a.0)]))
    case Await(x) =>
      if !mode.isAsync then (UnitVal, o.(ending := Unsupported))
      else
        var a := EvalExpr(x, mode, o);
        if a.1.ending != Running then (UnitVal, a.1)
        else if !a.0.FutureVal? then (UnitVal, a.1.(ending := Unsupported))
        else (a.0.output, a.1.(items := a.1.items + Pendings(a.0.pendingPolls)))
    case Try(x) =>
      var a := EvalExpr(x, mode, o);
      if a.1.ending != Running then (UnitVal, a.1)
      else
        (match Branch(a.0)
         case None => (UnitVal, a.1.(ending := Unsupported))
         case Some(Continue(ok)) => (ok, a.1)
         case Some(Break(res)) =>
           if mode.isTryYield then (UnitVal, Outcome(a.1.items + [Emit(mode, res)], Returned))
           else (UnitVal, a.1.(ending := Returned)))
    case Block(ss) => (UnitVal, EvalStmts(ss, mode, o))
    case _ => (UnitVal, o.(ending := Unsupported))
  }

  function EvalStmt(s: Stmt, mode: Expand.BodyVisitor, o: Outcome): Outcome
    requires o.ending == Running
    decreases StmtSize(s), 1
  {
    match s
    case Local(_, init) => if init.Some? then EvalExpr(init.value, mode, o).1 else o
    case ExprStmt(e, _) => EvalExpr(e, mode, o).1
    case ItemMacro(_, _, _) => o.(ending := Unsupported)
    case _ => o
  }

  function EvalStmts(ss: seq<Stmt>, mode: Expand.BodyVisitor, o: Outcome): Outcome
    decreases StmtsSize(ss), 2
  {
    if ss == [] || o.ending != Running then o
    else EvalStmts(ss[1..], mode, EvalStmt(ss[0], mode, o))
  }

  // ---------------------------------------------------------------------
  // The rewrite keeps the meaning
  // ---------------------------------------------------------------------

  /** The loop of `async_gen_await!` yields one `Poll::Pending` per pending
      poll, then evaluates to the future's output. */
  lemma {:induction false} AwaitLoopRuns(pending: nat, out: Value, c: Contexts, captured: nat, m: Machine)
    ensures var r := AwaitLoop(pending, out, c, captured, m);
            r.0 == out && r.1.yielded == m.yielded + Pendings(pending) && r.1.ending == m.ending
            && |r.1.polls| == |m.polls| + pending + 1
    decreases pending
  {
    if pending == 0 {
      assert Pendings(0) == [];
      assert m.yielded + [] == m.yielded;
    } else {
      var used := if c == AsWritten then captured else m.streamCtx;
      var polled := m.(polls := m.polls + [PollRecord(used, |m.yielded|)]);
      var next := Suspend(polled, PendingVal, true);
      AwaitLoopRuns(pending - 1, out, c, captured, next);
      assert m.yielded + [PendingVal] + Pendings(pending - 1) == m.yielded + Pendings(pending);
    }
  }

  /** Running the rewritten expression observes exactly what the source
      expression means, whenever the source has a meaning. */
  predicate ExprRuns(v: Expand.BodyVisitor, e: Expr, c: Contexts, m: Machine)
    requires m.ending == Running
  {
    var src := EvalExpr(e, v, Outcome(m.yielded, Running));
    var run := ExecExpr(v.RewriteExpr(e), c, m);
    src.1.ending != Unsupported ==> run.0 == src.0 && run.1.yielded == src.1.items && run.1.ending == src.1.ending
  }

  lemma YieldRuns(v: Expand.BodyVisitor, x: Option<Expr>, c: Contexts, m: Machine)
    requires m.ending == Running
    requires x.Some? ==> ExprRuns(v, x.value, c, m)
    ensures ExprRuns(v, Yield(x), c, m)
  {
  }

  lemma AwaitRuns(v: Expand.BodyVisitor, x: Expr, c: Contexts, m: Machine)
    requires m.ending == Running
    requires ExprRuns(v, x, c, m)
    ensures ExprRuns(v, Await(x), c, m)
  {
    var a := ExecExpr(v.RewriteExpr(x), c, m);
    if v.isAsync && a.1.ending == Running && a.0.FutureVal? {
      AwaitLoopRuns(a.0.pendingPolls, a.0.output, c, a.1.streamCtx, a.1);
    }
  }

  lemma TryRuns(v: Expand.BodyVisitor, x: Expr, c: Contexts, m: Machine)
    requires m.ending == Running
    requires ExprRuns(v, x, c, m)
    ensures ExprRuns(v, Try(x), c, m)
  {
  }

  lemma {:induction false} RewriteExprRuns(v: Expand.BodyVisitor, e: Expr, c: Contexts, m: Machine)
    requires m.ending == Running
    ensures ExprRuns(v, e, c, m)
    decreases ExprSize(e), 1
  {
    match e
    case Yield(x) =>
      if x.Some? {
        RewriteExprRuns(v, x.value, c, m);
      }
      YieldRuns(v, x, c, m);
    case Await(x) =>
      RewriteExprRuns(v, x, c, m);
      AwaitRuns(v, x, c, m);
    case Try(x) =>
      RewriteExprRuns(v, x, c, m);
      TryRuns(v, x, c, m);
    case Block(ss) =>
      RewriteStmtsRuns(v, ss, c, m);
    case _ =>
  }

  lemma {:induction false} RewriteStmtRuns(v: Expand.BodyVisitor, s: Stmt, c: Contexts, m: Machine)
    requires m.ending == Running
    ensures var src := EvalStmt(s, v, Outcome(m.yielded, Running));
            var run := ExecStmt(v.RewriteStmt(s), c, m);
            src.ending != Unsupported ==> run.yielded == src.items && run.ending == src.ending
    decreases StmtSize(s), 1
  {
    match s
    case Local(_, init) =>
      if init.Some? {
        RewriteExprRuns(v, init.value, c, m);
        assert ExprRuns(v, init.value, c, m);
      }
    case ExprStmt(e, _) =>
      RewriteExprRuns(v, e, c, m);
      assert ExprRuns(v, e, c, m);
    case _ =>
  }

  lemma {:induction false} RewriteStmtsRuns(v: Expand.BodyVisitor, ss: seq<Stmt>, c: Contexts, m: Machine)
    ensures var src := EvalStmts(ss, v, Outcome(m.yielded, m.ending));
            var run := ExecStmts(v.RewriteStmts(ss), c, m);
            src.ending != Unsupported ==> run.yielded == src.items && run.ending == src.ending
    decreases StmtsSize(ss), 2
  {
    if ss != [] && m.ending == Running {
      var rs := v.RewriteStmts(ss);
      assert rs[0] == v.RewriteStmt(ss[0]) && rs[1..] == v.RewriteStmts(ss[1..]);
      var m1 := ExecStmt(v.RewriteStmt(ss[0]), c, m);
      var o1 := EvalStmt(ss[0], v, Outcome(m.yielded, Running));
      RewriteStmtRuns(v, ss[0], c, m);
      if o1.ending != Unsupported {
        assert Outcome(m1.yielded, m1.ending) == o1;
        RewriteStmtsRuns(v, ss[1..], c, m1);
      }
    }
  }

  /** `{ return; yield panic!(); }` returns before it yields. */
  lemma TailReturns(c: Contexts, m: Machine)
    requires m.ending == Running
    ensures ExecStmt(Expand.Tail, c, m) == m.(ending := Returned)
  {
    var inner := Expand.Tail.expr.stmts;
    assert ExecStmt(inner[0], c, m) == m.(ending := Returned);
    assert ExecStmts(inner[1..], c, m.(ending := Returned)) == m.(ending := Returned);
  }

  /** A body that runs off its end reaches the tail and returns. */
  function Finish(m: Machine): Machine {
    if m.ending == Running then m.(ending := Returned) else m
  }

  /** The emitted closure runs the visited body, then the tail. */
  lemma BuiltBodyRuns(g: Expand.GenMacro, c: Contexts)
    ensures ExecStmts(Expand.BuildSpec(g).expansion.body, c, Start)
            == Finish(ExecStmts(Expand.BodyVisitor(g.isAsync, g.isTryYield).RewriteStmts(g.body), c, Start))
  {
    var mode := Expand.BodyVisitor(g.isAsync, g.isTryYield);
    var body := Expand.BuildSpec(g).expansion.body;
    var m1 := ExecStmts(mode.RewriteStmts(g.body), c, Start);
    assert ExecStmt(body[0], c, Start) == m1;
    assert ExecStmts(body, c, Start) == ExecStmts(body[1..], c, m1);
    assert body[1..] == [Expand.Tail];
    if m1.ending == Running {
      TailReturns(c, m1);
      assert ExecStmts(body[1..], c, m1) == ExecStmts([], c, m1.(ending := Returned));
    }
  }

  /** What the generator `GenMacro::build` emits yields is exactly what its
      source body means, and the generator then completes. */
  lemma GeneratorRuns(g: Expand.GenMacro, c: Contexts)
    ensures var mode := Expand.BodyVisitor(g.isAsync, g.isTryYield);
            var src := EvalStmts(g.body, mode, Outcome([], Running));
            var run := ExecStmts(Expand.BuildSpec(g).expansion.body, c, Start);
            src.ending != Unsupported ==> run.yielded == src.items && run.ending == Returned
  {
    RewriteStmtsRuns(Expand.BodyVisitor(g.isAsync, g.isTryYield), g.body, c, Start);
    BuiltBodyRuns(g, c);
  }

  // ---------------------------------------------------------------------
  // Streams and iterators agree
  // ---------------------------------------------------------------------

  /** `Poll::Ready` around each value. */
  function ReadyAll(vs: seq<Value>): (r: seq<Value>)
    ensures |r| == |vs| && forall i :: 0 <= i < |vs| ==> r[i] == ReadyVal(vs[i])
  {
    if vs == [] then [] else [ReadyVal(vs[0])] + ReadyAll(vs[1..])
  }

  lemma {:induction false} StreamItemsOfReady(vs: seq<Value>)
    ensures StreamItems(ReadyAll(vs)) == vs
  {
    if vs != [] {
      assert ReadyAll(vs)[1..] == ReadyAll(vs[1..]);
      StreamItemsOfReady(vs[1..]);
    }
  }

  lemma ReadyAllAppend(a: seq<Value>, b: seq<Value>)
    ensures ReadyAll(a + b) == ReadyAll(a) + ReadyAll(b)
  {
  }

  /** What a body delivers through a stream is what it delivers through an
      iterator, wrapped in `Poll::Ready`, whenever it has a meaning as an
      iterator (no `.await`). */
  predicate ExprAgrees(e: Expr, t: bool, items: seq<Value>) {
    var sync := EvalExpr(e, Expand.BodyVisitor(false, t), Outcome(items, Running));
    var async := EvalExpr(e, Expand.BodyVisitor(true, t), Outcome(ReadyAll(items), Running));
    sync.1.ending != Unsupported ==>
      async.0 == sync.0 && async.1.items == ReadyAll(sync.1.items) && async.1.ending == sync.1.ending
  }

  lemma YieldAgrees(x: Option<Expr>, t: bool, items: seq<Value>)
    requires x.Some? ==> ExprAgrees(x.value, t, items)
    ensures ExprAgrees(Yield(x), t, items)
  {
    if x.Some? {
      var a := EvalExpr(x.value, Expand.BodyVisitor(false, t), Outcome(items, Running));
      ReadyAllAppend(a.1.items, [a.0]);
    } else {
      ReadyAllAppend(items, [UnitVal]);
    }
  }

  lemma TryAgrees(x: Expr, t: bool, items: seq<Value>)
    requires ExprAgrees(x, t, items)
    ensures ExprAgrees(Try(x), t, items)
  {
    var a := EvalExpr(x, Expand.BodyVisitor(false, t), Outcome(items, Running));
    if a.1.ending == Running && Branch(a.0).Some? && Branch(a.0).value.Break? {
      ReadyAllAppend(a.1.items, [a.0]);
    }
  }

  lemma {:induction false} AsyncExprAgrees(e: Expr, t: bool, items: seq<Value>)
    ensures ExprAgrees(e, t, items)
    decreases ExprSize(e), 1
  {
    match e
    case Yield(x) =>
      if x.Some? {
        AsyncExprAgrees(x.value, t, items);
      }
      YieldAgrees(x, t, items);
    case Try(x) =>
      AsyncExprAgrees(x, t, items);
      TryAgrees(x, t, items);
    case Block(ss) =>
      AsyncStmtsAgrees(ss, t, items, Running);
    case _ =>
  }

  lemma {:induction false} AsyncStmtAgrees(s: Stmt, t: bool, items: seq<Value>)
    ensures var sync := EvalStmt(s, Expand.BodyVisitor(false, t), Outcome(items, Running));
            var async := EvalStmt(s, Expand.BodyVisitor(true, t), Outcome(ReadyAll(items), Running));
            sync.ending != Unsupported ==> async.items == ReadyAll(sync.items) && async.ending == sync.ending
    decreases StmtSize(s), 1
  {
    match s
    case Local(_, init) =>
      if init.Some? {
        AsyncExprAgrees(init.value, t, items);
        assert ExprAgrees(init.value, t, items);
      }
    case ExprStmt(e, _) =>
      AsyncExprAgrees(e, t, items);
      assert ExprAgrees(e, t, items);
    case _ =>
  }

  lemma {:induction false} AsyncStmtsAgrees(ss: seq<Stmt>, t: bool, items: seq<Value>, ending: Ending)
    ensures var sync := EvalStmts(ss, Expand.BodyVisitor(false, t), Outcome(items, ending));
            var async := EvalStmts(ss, Expand.BodyVisitor(true, t), Outcome(ReadyAll(items), ending));
            sync.ending != Unsupported ==> async.items == ReadyAll(sync.items) && async.ending == sync.ending
    decreases StmtsSize(ss), 2
  {
    if ss != [] && ending == Running {
      var o1 := EvalStmt(ss[0], Expand.BodyVisitor(false, t), Outcome(items, Running));
      AsyncStmtAgrees(ss[0], t, items);
      if o1.ending != Unsupported {
        AsyncStmtsAgrees(ss[1..], t, o1.items, o1.ending);
      }
    }
  }

  /** A body without `.await` delivers the same items, in the same order,
      whether it is expanded as an iterator or as a stream. */
  lemma StreamDeliversIteratorItems(body: seq<Stmt>, t: bool)
    ensures var sync := EvalStmts(body, Expand.BodyVisitor(false, t), Outcome([], Running));
            var async := EvalStmts(body, Expand.BodyVisitor(true, t), Outcome([], Running));
            sync.ending != Unsupported ==> StreamItems(async.items) == sync.items && async.ending == sync.ending
  {
    assert ReadyAll([]) == [];
    AsyncStmtsAgrees(body, t, [], Running);
    var sync := EvalStmts(body, Expand.BodyVisitor(false, t), Outcome([], Running));
    StreamItemsOfReady(sync.items);
  }

  // ---------------------------------------------------------------------
  // Bodies from the crate's tests
  // ---------------------------------------------------------------------

  /** `yield v;` for each value in turn: a loop over known values, unrolled. */
  function YieldLits(vs: seq<Value>): (r: seq<Stmt>)
    ensures |r| == |vs|
  {
    if vs == [] then [] else [ExprStmt(Yield(Some(Lit(vs[0]))), true)] + YieldLits(vs[1..])
  }

  /** What the caller receives for each of `vs`. */
  function EmitAll(mode: Expand.BodyVisitor, vs: seq<Value>): (r: seq<Value>)
    ensures |r| == |vs| && forall i :: 0 <= i < |vs| ==> r[i] == Emit(mode, vs[i])
  {
    if mode.isAsync then ReadyAll(vs) else vs
  }

  lemma EvalYieldLit(mode: Expand.BodyVisitor, v: Value, o: Outcome)
    requires o.ending == Running
    ensures EvalStmt(ExprStmt(Yield(Some(Lit(v))), true), mode, o) == o.(items := o.items + [Emit(mode, v)])
  {
    assert EvalExpr(Lit(v), mode, o) == (v, o);
  }

  lemma EvalTryFailure(mode: Expand.BodyVisitor, failure: Value, o: Outcome)
    requires o.ending == Running && (failure.ErrVal? || failure.NoneVal?)
    ensures EvalStmt(ExprStmt(Try(Lit(failure)), true), mode, o)
            == Outcome(if mode.isTryYield then o.items + [Emit(mode, failure)] else o.items, Returned)
  {
    assert EvalExpr(Lit(failure), mode, o) == (failure, o);
  }

  lemma EvalYieldAwait(pending: nat, out: Value, o: Outcome)
    requires o.ending == Running
    ensures EvalStmt(ExprStmt(Yield(Some(Await(Lit(FutureVal(pending, out))))), true), Expand.BodyVisitor(true, false), o)
            == o.(items := o.items + Pendings(pending) + [ReadyVal(out)])
  {
    var mode := Expand.BodyVisitor(true, false);
    assert EvalExpr(Lit(FutureVal(pending, out)), mode, o) == (FutureVal(pending, out), o);
    assert EvalExpr(Await(Lit(FutureVal(pending, out))), mode, o) == (out, o.(items := o.items + Pendings(pending)));
  }

  lemma {:induction false} EvalYieldLits(mode: Expand.BodyVisitor, vs: seq<Value>, rest: seq<Stmt>, o: Outcome)
    requires o.ending == Running
    ensures EvalStmts(YieldLits(vs) + rest, mode, o) == EvalStmts(rest, mode, o.(items := o.items + EmitAll(mode, vs)))
  {
    if vs == [] {
      assert YieldLits(vs) + rest == rest;
      assert o.items + EmitAll(mode, vs) == o.items;
    } else {
      var ss := YieldLits(vs) + rest;
      assert ss[0] == ExprStmt(Yield(Some(Lit(vs[0]))), true);
      assert ss[1..] == YieldLits(vs[1..]) + rest;
      var o1 := o.(items := o.items + [Emit(mode, vs[0])]);
      EvalYieldLit(mode, vs[0], o);
      EvalYieldLits(mode, vs[1..], rest, o1);
      assert o1.items + EmitAll(mode, vs[1..]) == o.items + EmitAll(mode, vs);
    }
  }

  /** A body of yields (tests/generators.rs:4-22, the loop unrolled): the
      generator yields each value, wrapped in `Poll::Ready` for a stream,
      and completes. */
  lemma YieldsRun(vs: seq<Value>, isAsync: bool, isTryYield: bool, attrs: seq<Attribute>, c: Contexts)
    ensures var g := Expand.GenMacro(YieldLits(vs), isAsync, isTryYield, attrs);
            var run := ExecStmts(Expand.BuildSpec(g).expansion.body, c, Start);
            run.yielded == EmitAll(Expand.BodyVisitor(isAsync, isTryYield), vs) && run.ending == Returned
  {
    var g := Expand.GenMacro(YieldLits(vs), isAsync, isTryYield, attrs);
    var mode := Expand.BodyVisitor(isAsync, isTryYield);
    EvalYieldLits(mode, vs, [], Outcome([], Running));
    assert YieldLits(vs) + [] == YieldLits(vs);
    GeneratorRuns(g, c);
  }

  /** A `?` on a failure after some yields (tests/generators.rs:46-71,
      tests/stream.rs:49-74, tests/gen_blocks.rs:52-70): with a `Result` or
      `Option` yield type the failure is yielded once and the generator
      completes; otherwise it completes at once. Nothing after the `?` runs. */
  lemma TryFailureEndsRun(vs: seq<Value>, failure: Value, rest: seq<Stmt>, isAsync: bool, isTryYield: bool,
                          attrs: seq<Attribute>, c: Contexts)
    requires failure.ErrVal? || failure.NoneVal?
    ensures var g := Expand.GenMacro(YieldLits(vs) + [ExprStmt(Try(Lit(failure)), true)] + rest, isAsync, isTryYield, attrs);
            var run := ExecStmts(Expand.BuildSpec(g).expansion.body, c, Start);
            run.ending == Returned
            && run.yielded == EmitAll(Expand.BodyVisitor(isAsync, isTryYield), if isTryYield then vs + [failure] else vs)
  {
    var body := YieldLits(vs) + [ExprStmt(Try(Lit(failure)), true)] + rest;
    var g := Expand.GenMacro(body, isAsync, isTryYield, attrs);
    var mode := Expand.BodyVisitor(isAsync, isTryYield);
    var tail := [ExprStmt(Try(Lit(failure)), true)] + rest;
    assert body == YieldLits(vs) + tail;
    EvalYieldLits(mode, vs, tail, Outcome([], Running));
    var o1 := Outcome(EmitAll(mode, vs), Running);
    assert [] + EmitAll(mode, vs) == EmitAll(mode, vs);
    var o2 := EvalStmt(tail[0], mode, o1);
    EvalTryFailure(mode, failure, o1);
    assert tail[1..] == rest;
    assert EvalStmts(tail, mode, o1) == o2;
    if isTryYield {
      assert o2.items == EmitAll(mode, vs + [failure]);
    }
    GeneratorRuns(g, c);
  }

  /** The body of `foo` in tests/stream.rs:7-13: `yield 0; yield fut.await;
      yield 2;`, with a future that is pending for `pending` polls and then
      ready with 1. */
  function StreamFooBody(pending: nat): seq<Stmt> {
    [ExprStmt(Yield(Some(Lit(IntVal(0)))), true),
     ExprStmt(Yield(Some(Await(Lit(FutureVal(pending, IntVal(1)))))), true),
     ExprStmt(Yield(Some(Lit(IntVal(2)))), true)]
  }

  function StreamFoo(pending: nat): Expand.GenMacro {
    Expand.GenMacro(StreamFooBody(pending), true, false, [])
  }

  /** tests/stream.rs:23-32: the stream is pending while the future is, and
      delivers 0, 1 and 2 before it ends. */
  lemma StreamFooRuns(pending: nat, c: Contexts)
    ensures var run := ExecStmts(Expand.BuildSpec(StreamFoo(pending)).expansion.body, c, Start);
            run.ending == Returned
            && run.yielded == [ReadyVal(IntVal(0))] + Pendings(pending) + [ReadyVal(IntVal(1)), ReadyVal(IntVal(2))]
            && StreamItems(run.yielded) == [IntVal(0), IntVal(1), IntVal(2)]
  {
    var mode := Expand.BodyVisitor(true, false);
    var body := StreamFooBody(pending);
    var o1 := EvalStmt(body[0], mode, Outcome([], Running));
    EvalYieldLit(mode, IntVal(0), Outcome([], Running));
    var o2 := EvalStmt(body[1], mode, o1);
    EvalYieldAwait(pending, IntVal(1), o1);
    var o3 := EvalStmt(body[2], mode, o2);
    EvalYieldLit(mode, IntVal(2), o2);
    assert EvalStmts(body, mode, Outcome([], Running)) == EvalStmts(body[1..], mode, o1);
    assert EvalStmts(body[1..], mode, o1) == EvalStmts(body[2..], mode, o2);
    assert EvalStmts(body[2..], mode, o2) == EvalStmts([], mode, o3);
    GeneratorRuns(StreamFoo(pending), c);
    var t := [ReadyVal(IntVal(0))] + Pendings(pending) + [ReadyVal(IntVal(1)), ReadyVal(IntVal(2))];
    StreamItemsAppend([ReadyVal(IntVal(0))] + Pendings(pending), [ReadyVal(IntVal(1)), ReadyVal(IntVal(2))]);
    StreamItemsAppend([ReadyVal(IntVal(0))], Pendings(pending));
    PendingsDeliverNothing(pending);
  }

  lemma {:induction false} PendingsDeliverNothing(n: nat)
    ensures StreamItems(Pendings(n)) == []
  {
    if n > 0 {
      assert Pendings(n)[1..] == Pendings(n - 1);
      PendingsDeliverNothing(n - 1);
    }
  }

  // ---------------------------------------------------------------------
  // Which task context a future is polled with
  // ---------------------------------------------------------------------

  /** Every poll used the context of the `poll_next` call in progress. */
  predicate PollsCurrent(polls: seq<PollRecord>) {
    forall i :: 0 <= i < |polls| ==> polls[i].used == polls[i].current
  }

  /** `__stream_ctx` holds the context of the call in progress, and every
      poll so far used the context of its own call. */
  predicate ContextsFresh(m: Machine) {
    m.streamCtx == |m.yielded| && PollsCurrent(m.polls)
  }

  lemma {:induction false} AwaitLoopFresh(pending: nat, out: Value, captured: nat, m: Machine)
    requires ContextsFresh(m)
    ensures ContextsFresh(AwaitLoop(pending, out, Refreshed, captured, m).1)
    decreases pending
  {
    var polled := m.(polls := m.polls + [PollRecord(m.streamCtx, |m.yielded|)]);
    assert ContextsFresh(polled);
    if pending > 0 {
      AwaitLoopFresh(pending - 1, out, captured, Suspend(polled, PendingVal, true));
    }
  }

  lemma ApplyLoweredFresh(form: LoweringMacro, v: Value, m: Machine)
    requires m.ending == Running && ContextsFresh(m)
    ensures ContextsFresh(ApplyLowered(form, v, Refreshed, m).1)
  {
    if form == AsyncGenAwait && v.FutureVal? {
      AwaitLoopFresh(v.pendingPolls, v.output, m.streamCtx, m);
    }
  }

  lemma {:induction false} ExecExprFresh(e: Expr, m: Machine)
    requires m.ending == Running && ContextsFresh(m)
    ensures ContextsFresh(ExecExpr(e, Refreshed, m).1)
    decreases ExprSize(e), 1
  {
    match e
    case Yield(x) =>
      if x.Some? {
        ExecExprFresh(x.value, m);
      }
    case Lowered(form, arg) =>
      ExecExprFresh(arg, m);
      var a := ExecExpr(arg, Refreshed, m);
      if a.1.ending == Running {
        ApplyLoweredFresh(form, a.0, a.1);
      }
    case Block(ss) =>
      ExecStmtsFresh(ss, m);
    case _ =>
  }

  lemma {:induction false} ExecStmtFresh(s: Stmt, m: Machine)
    requires m.ending == Running && ContextsFresh(m)
    ensures ContextsFresh(ExecStmt(s, Refreshed, m))
    decreases StmtSize(s), 1
  {
    match s
    case Local(_, init) =>
      if init.Some? {
        ExecExprFresh(init.value, m);
      }
    case ExprStmt(e, _) =>
      ExecExprFresh(e, m);
    case _ =>
  }

  lemma {:induction false} ExecStmtsFresh(ss: seq<Stmt>, m: Machine)
    requires ContextsFresh(m)
    ensures ContextsFresh(ExecStmts(ss, Refreshed, m))
    decreases StmtsSize(ss), 2
  {
    if ss != [] && m.ending == Running {
      ExecStmtFresh(ss[0], m);
      ExecStmtsFresh(ss[1..], ExecStmt(ss[0], Refreshed, m));
    }
  }

  /** With the context re-read at every poll and rebound at every yield,
      every future in every generator is polled with the context of the
      `poll_next` call in progress. */
  lemma RefreshedPollsCurrent(g: Expand.GenMacro)
    ensures PollsCurrent(ExecStmts(Expand.BuildSpec(g).expansion.body, Refreshed, Start).polls)
  {
    BuiltBodyRuns(g, Refreshed);
    ExecStmtsFresh(Expand.BodyVisitor(g.isAsync, g.isTryYield).RewriteStmts(g.body), Start);
  }

  /** `yield future.await;`, the loop body of `stream` in
      tests/stream.rs:15-21, for a future pending for `pending` polls. */
  function AwaitBody(pending: nat): seq<Stmt> {
    [ExprStmt(Yield(Some(Await(Lit(FutureVal(pending, IntVal(1)))))), true)]
  }

  lemma LowerYieldAwait(pending: nat, out: Value)
    ensures Expand.BodyVisitor(true, false).RewriteStmt(ExprStmt(Yield(Some(Await(Lit(FutureVal(pending, out))))), true))
            == ExprStmt(Lowered(AsyncGenYield, Lowered(AsyncGenAwait, Lit(FutureVal(pending, out)))), true)
  {
    var v := Expand.BodyVisitor(true, false);
    var f := Lit(FutureVal(pending, out));
    assert v.RewriteExpr(f) == f;
    assert v.RewriteChildren(Await(f)) == Await(f);
    assert v.RewriteExpr(Await(f)) == Lowered(AsyncGenAwait, f);
    var y := Yield(Some(Await(f)));
    assert v.RewriteChildren(y) == Yield(Some(Lowered(AsyncGenAwait, f)));
    assert v.RewriteExpr(y) == Lowered(AsyncGenYield, Lowered(AsyncGenAwait, f));
  }

  lemma LowerYieldLit(x: Value)
    ensures Expand.BodyVisitor(true, false).RewriteStmt(ExprStmt(Yield(Some(Lit(x))), true))
            == ExprStmt(Lowered(AsyncGenYield, Lit(x)), true)
  {
    var v := Expand.BodyVisitor(true, false);
    assert v.RewriteExpr(Lit(x)) == Lit(x);
    assert v.RewriteChildren(Yield(Some(Lit(x)))) == Yield(Some(Lit(x)));
    assert v.RewriteExpr(Yield(Some(Lit(x)))) == Lowered(AsyncGenYield, Lit(x));
  }

  /** Running `yield fut.await;` once lowered. */
  lemma ExecYieldAwait(pending: nat, out: Value, c: Contexts, m: Machine)
    requires m.ending == Running
    ensures var a := AwaitLoop(pending, out, c, m.streamCtx, m);
            ExecStmt(ExprStmt(Lowered(AsyncGenYield, Lowered(AsyncGenAwait, Lit(FutureVal(pending, out)))), true), c, m)
            == Suspend(a.1, ReadyVal(a.0), c == Refreshed)
  {
    var f := FutureVal(pending, out);
    assert ExecExpr(Lit(f), c, m) == (f, m);
    AwaitLoopRuns(pending, out, c, m.streamCtx, m);
    var a := AwaitLoop(pending, out, c, m.streamCtx, m);
    assert ExecExpr(Lowered(AsyncGenAwait, Lit(f)), c, m) == a;
  }

  /** As written, a future that is pending once is polled the second time
      during the second `poll_next` call (context 1) with the context of the
      first (context 0); re-reading the context polls it with context 1. */
  lemma StaleContextInAwait()
    ensures var g := Expand.GenMacro(AwaitBody(1), true, false, []);
            && ExecStmts(Expand.BuildSpec(g).expansion.body, AsWritten, Start).polls == [PollRecord(0, 0), PollRecord(0, 1)]
            && ExecStmts(Expand.BuildSpec(g).expansion.body, Refreshed, Start).polls == [PollRecord(0, 0), PollRecord(1, 1)]
  {
    var g := Expand.GenMacro(AwaitBody(1), true, false, []);
    var v := Expand.BodyVisitor(true, false);
    LowerYieldAwait(1, IntVal(1));
    var lowered := [ExprStmt(Lowered(AsyncGenYield, Lowered(AsyncGenAwait, Lit(FutureVal(1, IntVal(1))))), true)];
    assert v.RewriteStmts(AwaitBody(1)) == lowered;
    BuiltBodyRuns(g, AsWritten);
    BuiltBodyRuns(g, Refreshed);
    ExecYieldAwait(1, IntVal(1), AsWritten, Start);
    ExecYieldAwait(1, IntVal(1), Refreshed, Start);
    assert ExecStmts(lowered, AsWritten, Start) == ExecStmts([], AsWritten, ExecStmt(lowered[0], AsWritten, Start));
    assert ExecStmts(lowered, Refreshed, Start) == ExecStmts([], Refreshed, ExecStmt(lowered[0], Refreshed, Start));
  }

  /** As written, `yield 0; yield fut.await;` in `foo` (tests/stream.rs:7-13)
      polls `fut` during the second `poll_next` call (context 1) with the
      context of the first (context 0), because `async_gen_yield!` drops the
      context it is resumed with; rebinding it polls with context 1. */
  lemma StaleContextAfterYield()
    ensures && ExecStmts(Expand.BuildSpec(StreamFoo(0)).expansion.body, AsWritten, Start).polls == [PollRecord(0, 1)]
            && ExecStmts(Expand.BuildSpec(StreamFoo(0)).expansion.body, Refreshed, Start).polls == [PollRecord(1, 1)]
  {
    var v := Expand.BodyVisitor(true, false);
    var body := StreamFooBody(0);
    var fut := FutureVal(0, IntVal(1));
    LowerYieldLit(IntVal(0));
    LowerYieldAwait(0, IntVal(1));
    LowerYieldLit(IntVal(2));
    var lowered := [ExprStmt(Lowered(AsyncGenYield, Lit(IntVal(0))), true),
                    ExprStmt(Lowered(AsyncGenYield, Lowered(AsyncGenAwait, Lit(fut))), true),
                    ExprStmt(Lowered(AsyncGenYield, Lit(IntVal(2))), true)];
    assert v.RewriteStmts(body[2..]) == lowered[2..];
    assert v.RewriteStmts(body[1..]) == lowered[1..];
    assert v.RewriteStmts(body) == lowered;
    BuiltBodyRuns(StreamFoo(0), AsWritten);
    BuiltBodyRuns(StreamFoo(0), Refreshed);
    PollsOfFoo(lowered, AsWritten);
    PollsOfFoo(lowered, Refreshed);
  }

  lemma PollsOfFoo(lowered: seq<Stmt>, c: Contexts)
    requires lowered == [ExprStmt(Lowered(AsyncGenYield, Lit(IntVal(0))), true),
                         ExprStmt(Lowered(AsyncGenYield, Lowered(AsyncGenAwait, Lit(FutureVal(0, IntVal(1))))), true),
                         ExprStmt(Lowered(AsyncGenYield, Lit(IntVal(2))), true)]
    ensures ExecStmts(lowered, c, Start).polls == [PollRecord(if c == AsWritten then 0 else 1, 1)]
  {
    assert ExecExpr(Lit(IntVal(0)), c, Start) == (IntVal(0), Start);
    var m1 := Suspend(Start, ReadyVal(IntVal(0)), c == Refreshed);
    assert ExecStmt(lowered[0], c, Start) == m1;
    ExecYieldAwait(0, IntVal(1), c, m1);
    var m2 := ExecStmt(lowered[1], c, m1);
    assert m2.polls == [PollRecord(m1.streamCtx, 1)];
    assert ExecExpr(Lit(IntVal(2)), c, m2) == (IntVal(2), m2);
    var m3 := ExecStmt(lowered[2], c, m2);
    assert m3.polls == m2.polls;
    assert ExecStmts(lowered, c, Start) == ExecStmts(lowered[1..], c, m1);
    assert ExecStmts(lowered[1..], c, m1) == ExecStmts(lowered[2..], c, m2);
    assert ExecStmts(lowered[2..], c, m2) == ExecStmts([], c, m3);
  }

  // ---------------------------------------------------------------------
  // Calling a generator function and draining what it returns
  // ---------------------------------------------------------------------

  /** In a stream body everything handed to the caller is a `Poll`. */
  predicate ExprPolls(e: Expr, mode: Expand.BodyVisitor, o: Outcome)
    requires o.ending == Running
  {
    PollTrace(o.items) ==> PollTrace(EvalExpr(e, mode, o).1.items)
  }

  lemma YieldPolls(x: Option<Expr>, mode: Expand.BodyVisitor, o: Outcome)
    requires o.ending == Running && mode.isAsync
    requires x.Some? ==> ExprPolls(x.value, mode, o)
    ensures ExprPolls(Yield(x), mode, o)
  {
  }

  lemma AwaitPolls(x: Expr, mode: Expand.BodyVisitor, o: Outcome)
    requires o.ending == Running && mode.isAsync
    requires ExprPolls(x, mode, o)
    ensures ExprPolls(Await(x), mode, o)
  {
  }

  lemma TryPolls(x: Expr, mode: Expand.BodyVisitor, o: Outcome)
    requires o.ending == Running && mode.isAsync
    requires ExprPolls(x, mode, o)
    ensures ExprPolls(Try(x), mode, o)
  {
  }

  lemma {:induction false} EvalExprPolls(e: Expr, mode: Expand.BodyVisitor, o: Outcome)
    requires o.ending == Running && mode.isAsync
    ensures ExprPolls(e, mode, o)
    decreases ExprSize(e), 1
  {
    match e
    case Yield(x) =>
      if x.Some? {
        EvalExprPolls(x.value, mode, o);
      }
      YieldPolls(x, mode, o);
    case Await(x) =>
      EvalExprPolls(x, mode, o);
      AwaitPolls(x, mode, o);
    case Try(x) =>
      EvalExprPolls(x, mode, o);
      TryPolls(x, mode, o);
    case Block(ss) =>
      EvalStmtsPolls(ss, mode, o);
    case _ =>
  }

  lemma {:induction false} EvalStmtPolls(s: Stmt, mode: Expand.BodyVisitor, o: Outcome)
    requires o.ending == Running && mode.isAsync
    ensures PollTrace(o.items) ==> PollTrace(EvalStmt(s, mode, o).items)
    decreases StmtSize(s), 1
  {
    match s
    case Local(_, init) =>
      if init.Some? {
        EvalExprPolls(init.value, mode, o);
        assert ExprPolls(init.value, mode, o);
      }
    case ExprStmt(e, _) =>
      EvalExprPolls(e, mode, o);
      assert ExprPolls(e, mode, o);
    case _ =>
  }

  lemma {:induction false} EvalStmtsPolls(ss: seq<Stmt>, mode: Expand.BodyVisitor, o: Outcome)
    requires mode.isAsync
    ensures PollTrace(o.items) ==> PollTrace(EvalStmts(ss, mode, o).items)
    decreases StmtsSize(ss), 2
  {
    if ss != [] && o.ending == Running {
      EvalStmtPolls(ss[0], mode, o);
      EvalStmtsPolls(ss[1..], mode, EvalStmt(ss[0], mode, o));
    }
  }

  /** Calling a function the macro produced as an iterator and collecting
      it (tests/generators.rs:14-22, 39-44): the items are what the body
      means. */
  method CollectIterator(g: Expand.GenMacro, c: Contexts, sizeHint: SizeHint) returns (items: seq<Value>)
    requires !g.isAsync
    requires EvalStmts(g.body, Expand.BodyVisitor(false, g.isTryYield), Outcome([], Running)).ending != Unsupported
    ensures items == EvalStmts(g.body, Expand.BodyVisitor(false, g.isTryYield), Outcome([], Running)).items
  {
    GeneratorRuns(g, c);
    var gen := new Generator(ExecStmts(Expand.BuildSpec(g).expansion.body, c, Start).yielded);
    var it := new IteratorItem(gen, sizeHint);
    items := it.Collect();
  }

  /** Calling a function the macro produced as a stream and driving it to
      the end (tests/stream.rs:23-47): the items are the ready values the
      body means, in order. */
  method CollectStream(g: Expand.GenMacro, c: Contexts, sizeHint: SizeHint) returns (items: seq<Value>)
    requires g.isAsync
    requires EvalStmts(g.body, Expand.BodyVisitor(true, g.isTryYield), Outcome([], Running)).ending != Unsupported
    ensures items == StreamItems(EvalStmts(g.body, Expand.BodyVisitor(true, g.isTryYield), Outcome([], Running)).items)
  {
    GeneratorRuns(g, c);
    EvalStmtsPolls(g.body, Expand.BodyVisitor(true, g.isTryYield), Outcome([], Running));
    var gen := new Generator(ExecStmts(Expand.BuildSpec(g).expansion.body, c, Start).yielded);
    var stream := new AsyncIteratorItem(gen, sizeHint);
    items := stream.Collect();
  }
}
