/** Token trees as a procedural macro receives them, plus the small
    Option/Result wrappers shared by the whole model. */
module Tokens {

  datatype Option<T> = None | Some(value: T)

  /** A parse error: the message syn attaches to the offending span
      (spans themselves are not modelled). */
  datatype SynError = SynError(message: string)

  datatype Result<T> = Ok(value: T) | Err(error: SynError)

  datatype Delimiter = Parenthesis | Brace | Bracket | NoDelimiter

  /** One token tree. Only identifiers keep a span, because the macrofy pass
      transfers the span of `gen` onto the identifier `async_gen`. Punctuation
      carries no spacing: `->`, `::` and `...` are consecutive punctuation
      tokens. */
  datatype Token =
    | Ident(name: string, span: nat)
    | Punct(ch: char)
    | Group(delimiter: Delimiter, stream: seq<Token>)
    | Literal(text: string)

  predicate IsIdent(t: Token, name: string) {
    t.Ident? && t.name == name
  }

  predicate StartsWithPunct(ts: seq<Token>, c: char) {
    |ts| > 0 && ts[0] == Punct(c)
  }

  predicate StartsWithIdent(ts: seq<Token>, name: string) {
    |ts| > 0 && IsIdent(ts[0], name)
  }

  /** Size measures used for termination of the mutually recursive passes. */
  function TokenSize(t: Token): (n: nat)
    ensures n >= 1
  {
    match t
    case Group(_, s) => 1 + StreamSize(s)
    case _ => 1
  }

  function StreamSize(s: seq<Token>): (n: nat)
    ensures n >= 1
  {
    if s == [] then 1 else TokenSize(s[0]) + StreamSize(s[1..])
  }

  lemma {:induction false} SuffixSize(s: seq<Token>, k: nat)
    requires k <= |s|
    ensures StreamSize(s[k..]) <= StreamSize(s)
    ensures 0 < k ==> StreamSize(s[k..]) < StreamSize(s)
  {
    if k > 0 {
      assert s[1..][k - 1..] == s[k..];
      SuffixSize(s[1..], k - 1);
    }
  }

  lemma {:induction false} ElementSize(s: seq<Token>, i: nat)
    requires i < |s|
    ensures TokenSize(s[i]) < StreamSize(s)
  {
    if i > 0 {
      ElementSize(s[1..], i - 1);
    }
  }

  // Sequence algebra, stated once so that proofs over large contexts do
  // not rediscover it.

  lemma DropPrefix<T>(a: seq<T>, b: seq<T>)
    ensures (a + b)[|a|..] == b
  {
  }

  lemma SliceOfAppend<T>(a: seq<T>, b: seq<T>, k: nat)
    requires k <= |a|
    ensures (a + b)[k..] == a[k..] + b
  {
  }

  lemma EmptyAppend<T>(s: seq<T>)
    ensures [] + s == s
  {
  }

  lemma DropFirst<T>(x: T, c: seq<T>)
    ensures ([x] + c)[1..] == c
  {
  }

  lemma AppendAssoc3<T>(a: seq<T>, b: seq<T>, c: seq<T>)
    ensures a + (b + c) == a + b + c
  {
  }

  lemma AppendAssoc<T>(a: seq<T>, b: seq<T>, c: seq<T>, d: seq<T>, e: seq<T>)
    ensures a + b + c + d + e == a + (b + (c + (d + e)))
  {
  }

  lemma ConsAppend<T>(acc: seq<T>, s: seq<T>)
    requires s != []
    ensures acc + [s[0]] + s[1..] == acc + s
  {
    assert s == [s[0]] + s[1..];
  }
}
