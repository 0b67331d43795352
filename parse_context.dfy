/** The parse context the statement parsers of both compilers share: the args,
    vars, defers, code, indent and tokenList fields that the handlers update in
    place, the lists that nested contexts share, and the facts every handler keeps. */
module ParseContext {
  import opened Tokens

  /** A list of names that a context and the contexts made from it share. */
  class Names {
    var items: seq<string>

    constructor (items0: seq<string>)
      ensures items == items0
    {
      items := items0;
    }

    method Push(name: string)
      modifies this
      ensures items == old(items) + [name]
    {
      items := items + [name];
    }
  }

  /** The parse context: arguments and variables (lists shared with nested
      contexts), deferred actions, generated lines, indentation depth and the tokens
      still to parse. */
  class Context {
    var args: Names
    var vars: Names
    var defers: seq<string>
    var code: seq<string>
    var indent: int
    var tokens: seq<Token>

    constructor (args0: Names, vars0: Names, tokens0: seq<Token>, indent0: int)
      ensures args == args0 && vars == vars0 && tokens == tokens0 && indent == indent0
      ensures defers == [] && code == []
    {
      args := args0;
      vars := vars0;
      defers := [];
      code := [];
      indent := indent0;
      tokens := tokens0;
    }

    /** pushCodeLine: the line, indented two spaces per level. */
    method PushCodeLine(line: string)
      modifies this
      ensures code == old(code) + [Indentation(indent) + line]
      ensures Same(this)
    {
      code := code + [Indentation(indent) + line];
    }
  }

  /** Everything but the generated code is unchanged. */
  twostate predicate Same(ctx: Context)
    reads ctx
  {
    ctx.args == old(ctx.args) && ctx.vars == old(ctx.vars) && ctx.defers == old(ctx.defers)
    && ctx.indent == old(ctx.indent) && ctx.tokens == old(ctx.tokens)
  }

  /** What every handler keeps: the shared lists stay the same objects and only
      grow, and the code and the deferred actions only grow. */
  twostate predicate Grows(ctx: Context)
    reads ctx, ctx.args, ctx.vars
  {
    ctx.args == old(ctx.args) && ctx.vars == old(ctx.vars)
    && old(ctx.args.items) <= ctx.args.items && old(ctx.vars.items) <= ctx.vars.items
    && old(ctx.code) <= ctx.code && old(ctx.defers) <= ctx.defers
  }

  /** createNewContext: a copy that shares the argument and variable lists, with
      its own (empty) code and deferred actions. */
  method NewContext(ctx: Context) returns (c: Context)
    ensures fresh(c)
    ensures c.args == ctx.args && c.vars == ctx.vars && c.tokens == ctx.tokens && c.indent == ctx.indent
    ensures c.defers == [] && c.code == []
  {
    c := new Context(ctx.args, ctx.vars, ctx.tokens, ctx.indent);
  }

  /** Each line indented to the given depth. */
  function Indented(lines: seq<string>, indent: int): (r: seq<string>)
    ensures |r| == |lines| && forall k :: 0 <= k < |r| ==> r[k] == Indentation(indent) + lines[k]
  {
    seq(|lines|, k requires 0 <= k < |lines| => Indentation(indent) + lines[k])
  }

  /** Names put in front of a result. */
  function Prefixed(pre: seq<string>, r: Result<seq<string>>): Result<seq<string>> {
    match r
    case Ok(ns) => Ok(pre + ns)
    case Err(f) => Err(f)
  }

  lemma PrefixedNothing(r: Result<seq<string>>)
    ensures Prefixed([], r) == r
  {
    match r
    case Ok(ns) =>
      assert [] + ns == ns;
    case Err(_) =>
  }

  /** The outcome of a rule's result. */
  function OutcomeOf<T>(r: Result<T>): (o: Outcome)
    ensures o.Pass? <==> r.Ok?
    ensures o.Fail? ==> o.failure == r.failure
  {
    match r
    case Ok(_) => Pass
    case Err(f) => Fail(f)
  }

  /** Each line of a sequence pushed in turn. */
  lemma IndentedCons(x: string, xs: seq<string>, indent: int)
    ensures Indented([x] + xs, indent) == [Indentation(indent) + x] + Indented(xs, indent)
  {
  }

  lemma IndentedAppend(a: seq<string>, b: seq<string>, indent: int)
    ensures Indented(a + b, indent) == Indented(a, indent) + Indented(b, indent)
  {
  }

  /** What every handler that passes keeps: Grows, the same depth, and no more tokens
      than before. */
  twostate predicate Advanced(ctx: Context)
    reads ctx, ctx.args, ctx.vars
  {
    Grows(ctx) && ctx.indent == old(ctx.indent) && |ctx.tokens| <= |old(ctx.tokens)|
  }

  /** The lines pushed one after the other, each at the context's depth. */
  method PushLines(ctx: Context, lines: seq<string>)
    modifies ctx
    ensures ctx.code == old(ctx.code) + Indented(lines, ctx.indent) && Same(ctx)
  {
    var i := 0;
    while i < |lines|
      invariant 0 <= i <= |lines|
      invariant ctx.code == old(ctx.code) + Indented(lines[..i], ctx.indent) && Same(ctx)
    {
      assert lines[..i + 1] == lines[..i] + [lines[i]];
      IndentedAppend(lines[..i], [lines[i]], ctx.indent);
      SeqAssociative(old(ctx.code), Indented(lines[..i], ctx.indent), [Indentation(ctx.indent) + lines[i]]);
      ctx.PushCodeLine(lines[i]);
      i := i + 1;
    }
    assert lines[..i] == lines;
  }

  /** Being a prefix is transitive. */
  lemma PrefixTrans<T>(a: seq<T>, b: seq<T>, c: seq<T>)
    requires a <= b && b <= c
    ensures a <= c
  {
    assert c[..|a|] == b[..|a|];
  }

  /** A prefix stays a (proper) prefix when a line is pushed. */
  lemma PrefixSnoc<T>(a: seq<T>, b: seq<T>, x: T)
    requires a <= b
    ensures a < b + [x]
  {
    assert (b + [x])[..|a|] == b[..|a|];
  }

}
