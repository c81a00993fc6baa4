/** The lexical pre-pass that turns `gen` into `gen !` and `async gen` into
    `async_gen !`, so that generator blocks reach the parser as macro
    invocations wherever they appear (iterator_item_macros/src/macrofy.rs). */
module Macrofy {
  import opened Tokens

  /** Either nothing is buffered, or an `async` identifier is held back until
      the next token shows whether it introduces `async gen`. */
  datatype MacrofyState = Passthrough | SawAsync(asyncIdent: Token)

  function Bang(): Token {
    Punct('!')
  }

  // ---------------------------------------------------------------------
  // Specification: the state machine as functions.
  // ---------------------------------------------------------------------

  /** One transition: the next state and the tokens pushed onto the queue.
      A step pushes nothing exactly when it starts buffering an `async`. */
  function StepSpec(st: MacrofyState, t: Token): (r: (MacrofyState, seq<Token>))
    decreases TokenSize(t), 0
    ensures |r.1| <= 2
    ensures r.1 == [] <==> r.0.SawAsync?
  {
    match st
    case Passthrough =>
      if t.Group? then (Passthrough, [Group(t.delimiter, MacrofySpec(t.stream))])
      else if IsIdent(t, "gen") then (Passthrough, [t, Bang()])
      else if IsIdent(t, "async") then (SawAsync(t), [])
      else (Passthrough, [t])
    case SawAsync(a) =>
      if IsIdent(t, "gen") then (Passthrough, [Ident("async_gen", t.span), Bang()])
      else (Passthrough, [a, t])
  }

  /** Everything emitted from state `st` over the stream `s`. A state still
      holding `async` when the stream ends emits nothing more. */
  function Run(st: MacrofyState, s: seq<Token>): seq<Token>
    decreases StreamSize(s), 1
  {
    if s == [] then []
    else
      var next := StepSpec(st, s[0]);
      next.1 + Run(next.0, s[1..])
  }

  function MacrofySpec(s: seq<Token>): seq<Token>
    decreases StreamSize(s), 2
  {
    Run(Passthrough, s)
  }

  /** The state reached after the stream `s`. */
  function Final(st: MacrofyState, s: seq<Token>): MacrofyState
    decreases |s|
  {
    if s == [] then st else Final(StepSpec(st, s[0]).0, s[1..])
  }

  // ---------------------------------------------------------------------
  // The imperative pass: `MacrofyState::step`, the `Macrofy` iterator and
  // `macrofy`.
  // ---------------------------------------------------------------------

  /** `MacrofyState::step`: replaces the state and pushes onto `out`. */
  method Step(state: MacrofyState, tree: Token, out: seq<Token>)
    returns (state': MacrofyState, out': seq<Token>)
    decreases TokenSize(tree), 1
    ensures state' == StepSpec(state, tree).0
    ensures out' == out + StepSpec(state, tree).1
  {
    match state {
      case Passthrough =>
        if tree.Group? {
          var inner := Macrofy(tree.stream);
          out' := out + [Group(tree.delimiter, inner)];
          state' := Passthrough;
        } else if IsIdent(tree, "gen") {
          out' := out + [tree, Bang()];
          state' := Passthrough;
        } else if IsIdent(tree, "async") {
          out' := out;
          state' := SawAsync(tree);
        } else {
          out' := out + [tree];
          state' := Passthrough;
        }
      case SawAsync(a) =>
        if IsIdent(tree, "gen") {
          out' := out + [Ident("async_gen", tree.span), Bang()];
        } else {
          out' := out + [a, tree];
        }
        state' := Passthrough;
    }
  }

  /** The iterator adapter: the not yet consumed input, the queue of tokens
      already produced but not yet handed out, and the state. */
  class MacrofyIter {
    var inner: seq<Token>
    var queue: seq<Token>
    var state: MacrofyState

    /** Everything this iterator will still hand out. */
    ghost function Pending(): seq<Token>
      reads this
    {
      queue + Run(state, inner)
    }

    constructor (input: seq<Token>)
      ensures inner == input && queue == [] && state == Passthrough
      ensures Pending() == MacrofySpec(input)
    {
      inner := input;
      queue := [];
      state := Passthrough;
    }

    /** `Macrofy::next`: drain the queue first; step only once it is empty;
        stop as soon as the input is exhausted (a buffered `async` is then
        dropped). Between calls the queue holds at most one token. */
    method Next() returns (r: Option<Token>)
      requires |queue| <= 1
      modifies this
      decreases StreamSize(inner), 0
      ensures |queue| <= 1
      ensures StreamSize(inner) <= old(StreamSize(inner))
      ensures old(Pending()) == [] ==> r == None && Pending() == []
      ensures old(Pending()) != [] ==> r == Some(old(Pending())[0]) && Pending() == old(Pending())[1..]
    {
      while true
        invariant |queue| <= 2
        invariant Pending() == old(Pending())
        invariant StreamSize(inner) <= old(StreamSize(inner))
        decreases |inner|
      {
        if queue != [] {
          r := Some(queue[0]);
          queue := queue[1..];
          return;
        }
        if inner == [] {
          return None;
        }
        var tree := inner[0];
        ElementSize(inner, 0);
        SuffixSize(inner, 1);
        inner := inner[1..];
        state, queue := Step(state, tree, queue);
      }
    }
  }

  /** `macrofy`: collect everything the iterator hands out. */
  method Macrofy(input: seq<Token>) returns (output: seq<Token>)
    decreases StreamSize(input), 3
    ensures output == MacrofySpec(input)
  {
    var it := new MacrofyIter(input);
    output := [];
    while true
      invariant output + it.Pending() == MacrofySpec(input)
      invariant |it.queue| <= 1
      invariant StreamSize(it.inner) <= StreamSize(input)
      decreases |it.Pending()|
    {
      var t := it.Next();
      match t {
        case None =>
          return;
        case Some(x) =>
          output := output + [x];
      }
    }
  }

  // ---------------------------------------------------------------------
  // Properties of the pass.
  // ---------------------------------------------------------------------

  /** The pass is compositional: what a stream emits is what its first part
      emits followed by what the rest emits from the state reached. */
  lemma {:induction false} RunSplit(st: MacrofyState, a: seq<Token>, b: seq<Token>)
    ensures Run(st, a + b) == Run(st, a) + Run(Final(st, a), b)
    decreases |a|
  {
    if a == [] {
      assert a + b == b;
    } else {
      assert (a + b)[0] == a[0];
      assert (a + b)[1..] == a[1..] + b;
      RunSplit(StepSpec(st, a[0]).0, a[1..], b);
    }
  }

  predicate IsKeyword(t: Token) {
    IsIdent(t, "gen") || IsIdent(t, "async")
  }

  /** At a level with no `gen` and no `async`, every token is emitted once,
      in order: groups keep their delimiter and have their contents
      macrofied, every other token is copied unchanged. */
  lemma {:induction false} TopLevelPassthrough(s: seq<Token>)
    requires forall i :: 0 <= i < |s| ==> !IsKeyword(s[i])
    ensures |MacrofySpec(s)| == |s|
    ensures forall i :: 0 <= i < |s| ==>
      MacrofySpec(s)[i] == (if s[i].Group? then Group(s[i].delimiter, MacrofySpec(s[i].stream)) else s[i])
    ensures Final(Passthrough, s) == Passthrough
  {
    if s != [] {
      TopLevelPassthrough(s[1..]);
      assert MacrofySpec(s) == StepSpec(Passthrough, s[0]).1 + MacrofySpec(s[1..]);
    }
  }

  /** No `gen` and no `async` anywhere, at any depth. */
  predicate KeywordFree(s: seq<Token>)
    decreases StreamSize(s)
  {
    forall i :: 0 <= i < |s| ==>
      !IsKeyword(s[i]) && (s[i].Group? ==> (ElementSize(s, i); KeywordFree(s[i].stream)))
  }

  /** A stream without the two keywords at any depth is left exactly as it
      is: the pass only ever changes `gen` and `async`. */
  lemma {:induction false} KeywordFreeUnchanged(s: seq<Token>)
    requires KeywordFree(s)
    ensures MacrofySpec(s) == s
    decreases StreamSize(s)
  {
    TopLevelPassthrough(s);
    forall i | 0 <= i < |s|
      ensures MacrofySpec(s)[i] == s[i]
    {
      if s[i].Group? {
        ElementSize(s, i);
        KeywordFreeUnchanged(s[i].stream);
      }
    }
  }

  /** `gen` met without a pending `async` becomes `gen !`, in any context. */
  lemma GenBecomesInvocation(a: seq<Token>, sp: nat, b: seq<Token>)
    requires Final(Passthrough, a) == Passthrough
    ensures MacrofySpec(a + [Ident("gen", sp)] + b)
         == MacrofySpec(a) + [Ident("gen", sp), Punct('!')] + MacrofySpec(b)
  {
    RunSplit(Passthrough, a, [Ident("gen", sp)] + b);
    assert a + [Ident("gen", sp)] + b == a + ([Ident("gen", sp)] + b);
  }

  /** `async gen` becomes the single identifier `async_gen` (with the span of
      `gen`) followed by `!`; the `async` token itself disappears. */
  lemma AsyncGenBecomesInvocation(a: seq<Token>, asp: nat, sp: nat, b: seq<Token>)
    requires Final(Passthrough, a) == Passthrough
    ensures MacrofySpec(a + [Ident("async", asp), Ident("gen", sp)] + b)
         == MacrofySpec(a) + [Ident("async_gen", sp), Punct('!')] + MacrofySpec(b)
  {
    var tail := [Ident("async", asp), Ident("gen", sp)] + b;
    RunSplit(Passthrough, a, tail);
    assert a + [Ident("async", asp), Ident("gen", sp)] + b == a + tail;
    assert tail[1..] == [Ident("gen", sp)] + b;
    assert Run(SawAsync(Ident("async", asp)), tail[1..]) == [Ident("async_gen", sp), Punct('!')] + MacrofySpec(b);
  }

  /** `async` followed by anything but `gen` is emitted with that token
      verbatim; in particular a group right after `async` is NOT macrofied. */
  lemma AsyncOtherVerbatim(a: seq<Token>, asp: nat, t: Token, b: seq<Token>)
    requires Final(Passthrough, a) == Passthrough
    requires !IsIdent(t, "gen")
    ensures MacrofySpec(a + [Ident("async", asp), t] + b)
         == MacrofySpec(a) + [Ident("async", asp), t] + MacrofySpec(b)
  {
    var tail := [Ident("async", asp), t] + b;
    RunSplit(Passthrough, a, tail);
    assert a + [Ident("async", asp), t] + b == a + tail;
    assert tail[1..] == [t] + b;
    assert Run(SawAsync(Ident("async", asp)), tail[1..]) == [Ident("async", asp), t] + MacrofySpec(b);
  }

  /** A buffered `async` that ends the stream is dropped. */
  lemma TrailingAsyncDropped(a: seq<Token>, asp: nat)
    requires Final(Passthrough, a) == Passthrough
    ensures MacrofySpec(a + [Ident("async", asp)]) == MacrofySpec(a)
  {
    RunSplit(Passthrough, a, [Ident("async", asp)]);
  }

  /** Groups after `async` keep their `gen` untouched, while the same group
      elsewhere would be rewritten. */
  lemma AsyncGroupNotRecursed(sp: nat, asp: nat)
    ensures MacrofySpec([Ident("async", asp), Group(Brace, [Ident("gen", sp)])])
         == [Ident("async", asp), Group(Brace, [Ident("gen", sp)])]
    ensures MacrofySpec([Group(Brace, [Ident("gen", sp)])])
         == [Group(Brace, [Ident("gen", sp), Punct('!')])]
  {
    var t := Ident("gen", sp);
    var g := [t];
    assert g[1..] == [];
    assert Run(Passthrough, g) == [t, Bang()] + Run(Passthrough, g[1..]);
    assert MacrofySpec(g) == [t, Punct('!')];
    var a := Ident("async", asp);
    var s1 := [a, Group(Brace, g)];
    assert s1[1..] == [Group(Brace, g)] && s1[1..][1..] == [];
    assert Run(SawAsync(a), s1[1..]) == [a, Group(Brace, g)] + Run(Passthrough, s1[1..][1..]);
    assert Run(Passthrough, s1) == [] + Run(SawAsync(a), s1[1..]);
    var s2 := [Group(Brace, g)];
    assert s2[1..] == [];
    assert Run(Passthrough, s2) == [Group(Brace, MacrofySpec(g))] + Run(Passthrough, s2[1..]);
  }

  /** The pass is not idempotent: an already marked `gen !` gains a second `!`. */
  lemma NotIdempotent(sp: nat)
    ensures MacrofySpec([Ident("gen", sp), Punct('!')]) == [Ident("gen", sp), Punct('!'), Punct('!')]
  {
    var t := Ident("gen", sp);
    var s := [t, Punct('!')];
    assert s[1..] == [Punct('!')] && s[1..][1..] == [];
    assert Run(Passthrough, s[1..]) == [Punct('!')] + Run(Passthrough, s[1..][1..]);
    assert Run(Passthrough, s) == [t, Bang()] + Run(Passthrough, s[1..]);
  }

  /** Every input token yields at most two output tokens. */
  lemma {:induction false} OutputBound(st: MacrofyState, s: seq<Token>)
    ensures |Run(st, s)| <= 2 * |s|
    decreases |s|
  {
    if s != [] {
      OutputBound(StepSpec(st, s[0]).0, s[1..]);
    }
  }
}
