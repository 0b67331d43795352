/** The statement parser of the older compiler prototype (lib/compiler/syntax.js):
    syntax.parse and its handlers, which read the lines of a context's token list
    and push JavaScript lines onto its code, with the rules of LegacyRules.  Every
    error goes through throwWordError, so `v` says whether it is raised as written
    (a host ReferenceError) or as intended (the syntax error it builds). */
module LegacyParser {
  import opened Tokens
  import opened SyntaxCommon
  import BrightRules
  import opened ParseContext
  import opened LegacyRules

  // ---------------------------------------------------------------------------
  // Statements without nested blocks

  /** parseExpression: the texts of the operands, trimmed, as one statement; the
      first token that is not an operand is an error. */
  method ParseExpression(v: Version, ctx: Context, name: string, ts: seq<Token>) returns (r: Outcome)
    modifies ctx
    ensures r == Raised(v, ExpressionCode(name, ts))
    ensures r.Pass? ==> ctx.code == old(ctx.code) + [Indentation(ctx.indent) + ExpressionCode(name, ts).value]
    ensures r.Fail? ==> ctx.code == old(ctx.code)
    ensures Same(ctx)
  {
    var code := "";
    var i := 0;
    while i < |ts|
      invariant 0 <= i <= |ts|
      invariant code + Texts(ts[i..]) == Texts(ts)
      invariant forall k :: 0 <= k < i ==> Operand(ts[k])
    {
      var t := ts[i];
      assert ts[i..][1..] == ts[i + 1..];
      if !(t.kind == Identifier || t.kind == Number || t.kind == Str || t.kind == Symbol) {
        ExpressionFirstError(name, ts, 0, i);
        return Fail(Thrown(v, ErrorAt(t, "")));
      }
      code := code + t.text;
      i := i + 1;
    }
    assert Texts(ts[i..]) == "" && code + "" == code;
    ExpressionAccepts(name, ts, 0);
    ExpressionText(name, ts, 0);
    code := Target(name) + Trim(code) + ";";
    ctx.PushCodeLine(code);
    return Pass;
  }

  /** The loop of parseArgument and parseVar: the identifiers are added to the list
      in order; a comma may not follow a comma. */
  method ParseIdentifiers(v: Version, names: Names, ts: seq<Token>) returns (r: Outcome)
    modifies names
    ensures r == Raised(v, BrightRules.ArgumentList(ts, false))
    ensures r.Pass? ==> names.items == old(names.items) + BrightRules.ArgumentList(ts, false).value
    ensures old(names.items) <= names.items
  {
    ghost var start := names.items;
    var isComma := false;
    var i := 0;
    assert ts[0..] == ts && names.items[|start|..] == [];
    PrefixedNothing(BrightRules.ArgumentList(ts, false));
    while i < |ts|
      invariant 0 <= i <= |ts|
      invariant start <= names.items
      invariant BrightRules.ArgumentList(ts, false) == Prefixed(names.items[|start|..], BrightRules.ArgumentList(ts[i..], isComma))
    {
      var t := ts[i];
      assert ts[i..][0] == t && ts[i..][1..] == ts[i + 1..];
      ghost var pre := names.items[|start|..];
      if t.kind == Identifier {
        isComma := false;
        names.Push(t.text);
        assert names.items[|start|..] == pre + [t.text];
        match BrightRules.ArgumentList(ts[i + 1..], false)
        case Ok(ns) =>
          assert pre + ([t.text] + ns) == pre + [t.text] + ns;
        case Err(_) =>
      } else if t.kind == Symbol && t.text == "," && !isComma {
        isComma := true;
      } else {
        return Fail(Thrown(v, ErrorAt(t, "")));
      }
      i := i + 1;
    }
    assert ts[i..] == [];
    return Pass;
  }

  /** parseRequire: one identifier or string, loaded with require(). */
  method ParseRequire(v: Version, ctx: Context, name: string, ts: seq<Token>) returns (r: Outcome)
    modifies ctx
    ensures r == Raised(v, RequireLine(name, ts))
    ensures r.Pass? ==> ctx.code == old(ctx.code) + [Indentation(ctx.indent) + RequireLine(name, ts).value]
    ensures r.Fail? ==> ctx.code == old(ctx.code)
    ensures Same(ctx)
  {
    if ts == [] {
      return Fail(Crash);
    }
    if |ts| != 1 {
      return Fail(Thrown(v, ErrorAt(ts[0], "")));
    }
    if !(ts[0].kind == Identifier || ts[0].kind == Str) {
      return Fail(Thrown(v, ErrorAt(ts[0], "")));
    }
    ctx.PushCodeLine(Target(name) + "require(" + ts[0].text + ");");
    return Pass;
  }

  /** parseReturn: the callback is called with `null` and the values. */
  method ParseReturn(v: Version, ctx: Context, ts: seq<Token>) returns (r: Outcome)
    modifies ctx
    ensures r == Raised(v, ReturnValues(ts, true))
    ensures r.Pass? ==> ctx.code == old(ctx.code) + [Indentation(ctx.indent) + ReturnLine(ReturnValues(ts, true).value)]
    ensures r.Fail? ==> ctx.code == old(ctx.code)
    ensures Same(ctx)
  {
    var values: seq<string> := [];
    var isComma := true;
    var i := 0;
    assert ts[0..] == ts;
    PrefixedNothing(ReturnValues(ts, true));
    while i < |ts|
      invariant 0 <= i <= |ts|
      invariant ReturnValues(ts, true) == Prefixed(values, ReturnValues(ts[i..], isComma))
    {
      var t := ts[i];
      assert ts[i..][0] == t && ts[i..][1..] == ts[i + 1..];
      if t.kind == Identifier || t.kind == Number {
        isComma := false;
        match ReturnValues(ts[i + 1..], false) {
          case Ok(ns) =>
            assert values + ([t.text] + ns) == values + [t.text] + ns;
          case Err(_) =>
        }
        values := values + [t.text];
      } else if !isComma && t.kind == Symbol && t.text == "," {
        isComma := true;
      } else {
        return Fail(Thrown(v, ErrorAt(t, "")));
      }
      i := i + 1;
    }
    assert ts[i..] == [];
    assert values + [] == values;
    ctx.PushCodeLine("return $$_callback(" + Join(["null"] + values, ", ") + ");");
    return Pass;
  }

  /** parseArgument: the names join the shared argument list. */
  method ParseArgument(v: Version, ctx: Context, ts: seq<Token>) returns (r: Outcome)
    requires ctx.args != ctx.vars
    modifies ctx.args
    ensures r == Raised(v, BrightRules.ArgumentList(ts, false))
    ensures r.Pass? ==> ctx.args.items == old(ctx.args.items) + BrightRules.ArgumentList(ts, false).value
    ensures old(ctx.args.items) <= ctx.args.items && ctx.vars.items == old(ctx.vars.items)
  {
    r := ParseIdentifiers(v, ctx.args, ts);
  }

  /** parseVar: the names join the shared variable list. */
  method ParseVar(v: Version, ctx: Context, ts: seq<Token>) returns (r: Outcome)
    requires ctx.args != ctx.vars
    modifies ctx.vars
    ensures r == Raised(v, BrightRules.ArgumentList(ts, false))
    ensures r.Pass? ==> ctx.vars.items == old(ctx.vars.items) + BrightRules.ArgumentList(ts, false).value
    ensures old(ctx.vars.items) <= ctx.vars.items && ctx.args.items == old(ctx.args.items)
  {
    r := ParseIdentifiers(v, ctx.vars, ts);
  }

  // ---------------------------------------------------------------------------
  // The scan of parseNested

  /** The brace count of parseNested after one line. */
  method CountBrace(v: Version, l: seq<Token>, brace: int) returns (b: int)
    requires l != []
    ensures b == NestStep(v, l, brace)
  {
    var firstT := l[0];
    var lastT := l[|l| - 1];
    var close := firstT.kind == Symbol && firstT.text == "}";
    var open := lastT.kind == Symbol && lastT.text == "{";
    b := brace;
    if v == AsWritten {
      if close {
        b := b - 1;
      } else if open {
        b := b + 1;
      }
    } else {
      if close {
        b := b - 1;
      }
      if b >= 0 && open {
        b := b + 1;
      }
    }
  }

  /** A scan result behind the tokens already taken into the body. */
  function Behind(body: seq<Token>, blk: Block): Block {
    Block(body + blk.body, blk.next, blk.closed)
  }

  /** The scan over a line that keeps the block open moves the line into the body. */
  lemma ScanKeeps(v: Version, body: seq<Token>, line: seq<Token>, ls: seq<seq<Token>>, brace: int, b: int)
    requires line != [] && NonEmptyLines(ls) && b == NestStep(v, line, brace) && b >= 0
    ensures NonEmptyLines([line] + ls)
    ensures Behind(body, NestedLines(v, [line] + ls, brace)) == Behind(body + line, NestedLines(v, ls, b))
  {
    NestedLinesCons(v, line, ls, brace, b);
    SeqAssociative(body, line, NestedLines(v, ls, b).body);
  }

  /** The scan over a line that closes the block. */
  lemma ScanStops(v: Version, body: seq<Token>, line: seq<Token>, next: seq<Token>, brace: int)
    requires line != [] && NestStep(v, line, brace) < 0
    ensures NonEmptyLines([line] + Lines(next))
    ensures Behind(body, NestedLines(v, [line] + Lines(next), brace))
         == Block(body, if |line| > 1 then line[1..] + next else next, true)
  {
    LinesNonEmpty(next);
    NestedLinesStop(v, line, Lines(next), brace);
    FlattenLines(next);
    assert body + [] == body;
  }

  /** parseNested's loop: whole lines go into the body until one takes the brace
      count below zero. */
  method ScanNested(v: Version, ts: seq<Token>) returns (blk: Block)
    ensures blk == Nested(v, ts)
  {
    var rest := ts;
    var body: seq<Token> := [];
    var brace := 0;
    var closed := false;
    LinesNonEmpty(ts);
    assert Nested(v, ts) == Behind(body, NestedLines(v, Lines(ts), 0));
    while rest != [] && !closed
      invariant NonEmptyLines(Lines(rest))
      invariant !closed ==> Nested(v, ts) == Behind(body, NestedLines(v, Lines(rest), brace))
      invariant closed ==> Nested(v, ts) == Block(body, rest, true)
      decreases |rest|, !closed
    {
      var split := ReadLine(rest);
      var line, next := split.value.line, split.value.next;
      LinesNonEmpty(next);
      assert Lines(rest) == [line] + Lines(next);
      var b := CountBrace(v, line, brace);
      if b < 0 {
        ScanStops(v, body, line, next, brace);
        if |line| > 1 {
          next := line[1..] + next;
        }
        rest, closed := next, true;
        LinesNonEmpty(rest);
      } else {
        ScanKeeps(v, body, line, Lines(next), brace, b);
        body, rest, brace := body + line, next, b;
      }
    }
    if !closed {
      assert Lines(rest) == [];
      assert body + [] == body;
    }
    return Block(body, rest, closed);
  }

  // ---------------------------------------------------------------------------
  // let and await

  /** parseLet's target loop: each new name is declared as it is read. */
  method LetTargetList(vars: Names, ts: seq<Token>) returns (r: Result<LetHead>)
    modifies vars
    ensures r == LetTargets(ts, 0, true, [])
    ensures r.Ok? ==> vars.items == Declare(old(vars.items), r.value.names)
    ensures old(vars.items) <= vars.items
  {
    ghost var start := vars.items;
    var names: seq<string> := [];
    var isComma := true;
    var i := 0;
    while i < |ts|
      invariant 0 <= i <= |ts|
      invariant LetTargets(ts, 0, true, []) == LetTargets(ts, i, isComma, names)
      invariant vars.items == Declare(start, names)
    {
      var t := ts[i];
      if t.kind == Identifier {
        LetTargetsAppend(ts, i, isComma, names);
        DeclareSnoc(start, names, t.text);
        isComma := false;
        if t.text !in vars.items {
          vars.Push(t.text);
        }
        names := names + [t.text];
      } else if !isComma && t.kind == Symbol {
        if t.text == "," {
          LetTargetsSkip(ts, i, isComma, names);
          isComma := true;
        } else if t.text == "=" {
          DeclareOnce(start, names);
          return Ok(LetHead(names, ts[i + 1..]));
        } else {
          DeclareOnce(start, names);
          return Err(ErrorAt(t, ""));
        }
      } else {
        DeclareOnce(start, names);
        return Err(ErrorAt(t, ""));
      }
      i := i + 1;
    }
    DeclareOnce(start, names);
    return Ok(LetHead(names, []));
  }

  /** The call text of parseAwait, by its `call += t.text` loops. */
  method AwaitCallText(ts: seq<Token>) returns (r: Result<string>)
    ensures r == AwaitCall(ts)
  {
    if ts == [] {
      return Err(Crash);
    }
    if ts[0].kind != Identifier {
      return Err(ErrorAt(ts[0], ""));
    }
    var call: string;
    if IsSymbol(ts[|ts| - 1], ")") {
      call := JoinTexts(ts[..|ts| - 1]);
      if !(|ts| >= 2 && IsSymbol(ts[|ts| - 2], "(")) {
        call := call + ", ";
      }
    } else {
      call := JoinTexts(ts);
      call := call + "(";
    }
    assert call == AwaitCall(ts).value;
    return Ok(call);
  }

  // ---------------------------------------------------------------------------
  // Statements with nested blocks, and syntax.parse itself.  The handlers and
  // syntax.parse call one another; termination is by the remaining tokens, with the
  // statement's own tokens counted for a handler (see the decreases clauses).

  /** The keywords syntax.parse has a case for. */
  predicate Handled(kw: string) {
    kw in ["argument", "var", "let", "require", "await", "return", "defer", "if", "for", "break", "continue"]
  }

  /** The cases that first check, with nextNextToken, that the keyword has an operand. */
  predicate TakesOperand(kw: string) {
    kw in ["argument", "var", "let", "require", "await", "defer", "if", "for"]
  }

  /** The error a statement is refused with before any of its code: an unknown
      keyword, or a keyword without the operand it takes. */
  function Refusal(line: seq<Token>): (f: Option<Failure>)
    requires line != []
    ensures f.None? <==> line[0].kind != Keyword || (Handled(line[0].text) && (|line| >= 2 || !TakesOperand(line[0].text)))
  {
    var t := line[0];
    if t.kind != Keyword then None
    else if !Handled(t.text) then Some(ErrorAt(t, ""))
    else if TakesOperand(t.text) && |line| < 2 then Some(ErrorAt(t, "Unexpected end of input"))
    else None
  }

  /** Nothing of the context has changed. */
  twostate predicate Unchanged(ctx: Context)
    reads ctx, ctx.args, ctx.vars
  {
    ctx.args.items == old(ctx.args.items) && ctx.vars.items == old(ctx.vars.items)
    && ctx.code == old(ctx.code) && ctx.defers == old(ctx.defers)
  }

  /** syntax.parse on a context: the remaining tokens are compiled line by line
      until they run out or a statement fails. */
  method Parse(v: Version, ctx: Context) returns (r: Outcome, ghost lines: seq<seq<Token>>, ghost states: seq<seq<string>>)
    requires ctx.args != ctx.vars
    modifies ctx, ctx.args, ctx.vars
    ensures r.Pass? ==> Advanced(ctx) && ctx.tokens == []
    ensures old(ctx.tokens) == [] ==> r == Pass && Unchanged(ctx)
    ensures r.Pass? ==> StatementSteps(lines, states, ctx.indent) && states[0] == old(ctx.code) && states[|lines|] == ctx.code
    ensures r.Pass? && old(ctx.tokens) != [] ==> lines != [] && lines[0] == FirstLine(old(ctx.tokens))
    decreases 16 * |ctx.tokens|
  {
    lines, states := [], [ctx.code];
    while ctx.tokens != []
      invariant Advanced(ctx)
      invariant old(ctx.tokens) == [] ==> ctx.tokens == [] && Unchanged(ctx)
      invariant StatementSteps(lines, states, ctx.indent) && states[0] == old(ctx.code) && states[|lines|] == ctx.code
      invariant lines == [] ==> ctx.tokens == old(ctx.tokens)
      invariant lines != [] ==> old(ctx.tokens) != [] && lines[0] == FirstLine(old(ctx.tokens))
      decreases |ctx.tokens|
    {
      var split := ReadLine(ctx.tokens);
      var line := split.value.line;
      ctx.tokens := split.value.next;
      r := Statement(v, ctx, line);
      if r.Fail? {
        return;
      }
      StatementStepsSnoc(lines, states, line, ctx.code, ctx.indent);
      lines, states := lines + [line], states + [ctx.code];
    }
    return Pass, lines, states;
  }

  /** What one statement does to the code: it only appends, and a statement of a
      single line (an expression, a `require`, a `return`, a `break` or a `continue`)
      appends exactly its line. */
  predicate StatementStep(line: seq<Token>, before: seq<string>, after: seq<string>, indent: int) {
    line != [] && before <= after
    && (line[0].kind != Keyword ==>
          ExpressionCode("", line).Ok? && after == before + [Indentation(indent) + ExpressionCode("", line).value])
    && (IsKeywordToken(line[0], "require") && |line| >= 2 ==>
          RequireLine("", line[1..]).Ok? && after == before + [Indentation(indent) + RequireLine("", line[1..]).value])
    && (IsKeywordToken(line[0], "return") ==>
          ReturnValues(line[1..], true).Ok? && after == before + [Indentation(indent) + ReturnLine(ReturnValues(line[1..], true).value)])
    && (IsKeywordToken(line[0], "break") ==> after == before + [Indentation(indent) + "return $$_break(null);"])
    && (IsKeywordToken(line[0], "continue") ==> after == before + [Indentation(indent) + "return $$_continue(null);"])
  }

  /** The statements of a program, in order: the code goes through one state per
      statement, each obtained from the one before by that statement. */
  predicate StatementSteps(lines: seq<seq<Token>>, states: seq<seq<string>>, indent: int)
    decreases |lines|
  {
    |states| == |lines| + 1
    && (lines != [] ==>
          StatementSteps(lines[..|lines| - 1], states[..|lines|], indent)
          && StatementStep(lines[|lines| - 1], states[|lines| - 1], states[|lines|], indent))
  }

  lemma StatementStepsSnoc(lines: seq<seq<Token>>, states: seq<seq<string>>, line: seq<Token>, after: seq<string>, indent: int)
    requires StatementSteps(lines, states, indent) && StatementStep(line, states[|lines|], after, indent)
    ensures StatementSteps(lines + [line], states + [after], indent)
  {
    assert (lines + [line])[..|lines|] == lines;
    assert (states + [after])[..|lines| + 1] == states;
  }

  /** Statement `i` of the program takes the code from state `i` to state `i + 1`. */
  lemma {:induction false} StatementStepAt(lines: seq<seq<Token>>, states: seq<seq<string>>, indent: int, i: int)
    requires StatementSteps(lines, states, indent) && 0 <= i < |lines|
    ensures StatementStep(lines[i], states[i], states[i + 1], indent)
    decreases |lines|
  {
    if i < |lines| - 1 {
      StatementStepAt(lines[..|lines| - 1], states[..|lines|], indent, i);
    }
  }

  /** The switch of syntax.parse: a statement is handed to the handler of its
      keyword, after nextNextToken's check where the keyword takes an operand, or is
      an expression when it does not start with a keyword. */
  method Statement(v: Version, ctx: Context, line: seq<Token>) returns (r: Outcome)
    requires line != [] && ctx.args != ctx.vars
    modifies ctx, ctx.args, ctx.vars
    ensures r.Pass? ==> Advanced(ctx)
    ensures Refusal(line).Some? ==> r == Fail(Thrown(v, Refusal(line).value)) && ctx.code == old(ctx.code)
    ensures r.Pass? ==> StatementStep(line, old(ctx.code), ctx.code, ctx.indent)
    ensures line[0].kind != Keyword ==> r == Raised(v, ExpressionCode("", line))
    ensures IsKeywordToken(line[0], "argument") && |line| >= 2 ==> (r == Raised(v, BrightRules.ArgumentList(line[1..], false))
      && (r.Pass? ==> ctx.args.items == old(ctx.args.items) + BrightRules.ArgumentList(line[1..], false).value))
    ensures IsKeywordToken(line[0], "var") && |line| >= 2 ==> (r == Raised(v, BrightRules.ArgumentList(line[1..], false))
      && (r.Pass? ==> ctx.vars.items == old(ctx.vars.items) + BrightRules.ArgumentList(line[1..], false).value))
    ensures IsKeywordToken(line[0], "require") && |line| >= 2 ==> r == Raised(v, RequireLine("", line[1..]))
    ensures IsKeywordToken(line[0], "return") ==> r == Raised(v, ReturnValues(line[1..], true))
    ensures IsKeywordToken(line[0], "break") || IsKeywordToken(line[0], "continue") ==> r == Pass
    decreases 16 * (|ctx.tokens| + |line|) - 1
  {
    var t := line[0];
    var rest := line[1..];
    if t.kind != Keyword {
      r := ParseExpression(v, ctx, "", line);
      return;
    }
    if !Handled(t.text) {
      return Fail(Thrown(v, ErrorAt(t, "")));
    }
    if TakesOperand(t.text) && rest == [] {
      return Fail(Thrown(v, ErrorAt(t, "Unexpected end of input")));
    }
    if t.text == "argument" {
      r := ParseArgument(v, ctx, rest);
    } else if t.text == "var" {
      r := ParseVar(v, ctx, rest);
    } else if t.text == "require" {
      r := ParseRequire(v, ctx, "", rest);
    } else if t.text == "return" {
      r := ParseReturn(v, ctx, rest);
    } else if t.text == "break" {
      ctx.PushCodeLine("return $$_break(null);");
      r := Pass;
    } else if t.text == "continue" {
      ctx.PushCodeLine("return $$_continue(null);");
      r := Pass;
    } else {
      r := StatementBlock(v, ctx, t, rest);
    }
  }

  /** The rest of parse's switch: the statements that compile a nested block or the
      rest of the input into a callback. */
  method StatementBlock(v: Version, ctx: Context, t: Token, rest: seq<Token>) returns (r: Outcome)
    requires ctx.args != ctx.vars
    modifies ctx, ctx.args, ctx.vars
    ensures r.Pass? ==> Advanced(ctx)
    decreases 16 * (|ctx.tokens| + |rest|) + 13
  {
    if t.text == "let" {
      r := ParseLet(v, ctx, rest);
    } else if t.text == "await" {
      r := ParseAwait(v, ctx, "", rest);
    } else if t.text == "defer" {
      ghost var block;
      r, block := ParseDefer(v, ctx, rest);
    } else if t.text == "if" {
      ghost var parts, next, heads, steps;
      r, parts, next, heads, steps := ParseIf(v, ctx, rest);
    } else {
      ghost var body, next;
      r, body, next := ParseFor(v, ctx, rest);
    }
  }

  /** parseNested: the block's tokens (with a `return` added when asked) are parsed
      into this context, and parsing goes on after the block. */
  method ParseNested(v: Version, ctx: Context, isReturn: bool) returns (r: Outcome)
    requires ctx.args != ctx.vars
    modifies ctx, ctx.args, ctx.vars
    ensures r.Pass? ==> Advanced(ctx) && ctx.tokens == Nested(v, old(ctx.tokens)).next
    decreases 16 * |ctx.tokens| + 17
  {
    var blk := ScanNested(v, ctx.tokens);
    NestedSize(v, ctx.tokens);
    var body := blk.body;
    if isReturn {
      body := WithReturn(body);
    }
    ctx.tokens := body;
    ghost var lines, states;
    r, lines, states := Parse(v, ctx);
    if r.Fail? {
      return;
    }
    ctx.tokens := blk.next;
  }

  /** parseLet: the targets are declared as they are read, then the await, require
      or expression after the `=` is compiled into them. */
  method ParseLet(v: Version, ctx: Context, ts: seq<Token>) returns (r: Outcome)
    requires ctx.args != ctx.vars
    modifies ctx, ctx.args, ctx.vars
    ensures r.Pass? ==> Advanced(ctx)
    ensures LetStatement(ts).Err? ==> r == Fail(Thrown(v, LetStatement(ts).failure)) && ctx.code == old(ctx.code)
    ensures r.Pass? ==> LetStatement(ts).Ok? && Declare(old(ctx.vars.items), LetTargets(ts, 0, true, []).value.names) <= ctx.vars.items
    ensures LetStatement(ts).Ok? && LetStatement(ts).value.LetExpression? ==>
      var form := LetStatement(ts).value;
      r == Raised(v, ExpressionCode(form.name, form.expr))
      && (r.Pass? ==> ctx.code == old(ctx.code) + [Indentation(ctx.indent) + ExpressionCode(form.name, form.expr).value]
                      && ctx.vars.items == Declare(old(ctx.vars.items), LetTargets(ts, 0, true, []).value.names))
    ensures LetStatement(ts).Ok? && LetStatement(ts).value.LetRequire? ==>
      var form := LetStatement(ts).value;
      r == Raised(v, RequireLine(form.name, form.operand))
      && (r.Pass? ==> ctx.code == old(ctx.code) + [Indentation(ctx.indent) + RequireLine(form.name, form.operand).value]
                      && ctx.vars.items == Declare(old(ctx.vars.items), LetTargets(ts, 0, true, []).value.names))
    ensures LetStatement(ts).Ok? && LetStatement(ts).value.LetAwait? ==>
      var form := LetStatement(ts).value;
      (AwaitCall(form.call).Err? ==> r == Fail(Thrown(v, AwaitCall(form.call).failure)) && ctx.code == old(ctx.code))
      && (r.Pass? ==> AwaitOpened(form.name, form.call, old(ctx.code), ctx.code, ctx.indent) && ctx.tokens == [])
    decreases 16 * (|ctx.tokens| + |ts|) + 12
  {
    if ts == [] {
      return Fail(Crash);
    }
    if |ts| < 3 {
      return Fail(Thrown(v, ErrorAt(ts[|ts| - 1], "Unexpected end of input")));
    }
    var head := LetTargetList(ctx.vars, ts);
    if head.Err? {
      return Fail(Thrown(v, head.failure));
    }
    LetRestShorter(ts, 0, true, []);
    var names, rest := head.value.names, head.value.rest;
    var name := Join(names, ", ");
    if rest == [] {
      return Fail(Thrown(v, ErrorAt(ts[|ts| - 1], "Unexpected end of input")));
    }
    if rest[0].kind == Keyword {
      if rest[0].text == "await" {
        if |rest| < 2 {
          return Fail(Thrown(v, ErrorAt(rest[0], "Unexpected end of input")));
        }
        r := ParseAwait(v, ctx, name, rest[1..]);
      } else if rest[0].text == "require" {
        if |names| > 1 {
          return Fail(Thrown(v, ErrorAt(rest[0], "Not support tuple assignment")));
        }
        if |rest| < 2 {
          return Fail(Thrown(v, ErrorAt(rest[0], "Unexpected end of input")));
        }
        r := ParseRequire(v, ctx, name, rest[1..]);
      } else {
        return Fail(Thrown(v, ErrorAt(rest[0], "")));
      }
    } else {
      if |names| > 1 {
        return Fail(Thrown(v, ErrorAt(rest[0], "Not support tuple assignment")));
      }
      r := ParseExpression(v, ctx, name, rest);
    }
  }

  /** The code a passing parseAwait leaves after `before`: the call's header whose
      callback takes the error and then the targets themselves, in order, the check
      that rethrows the error, then the rest of the statements, closed by the
      callback's end. */
  ghost predicate AwaitOpened(name: string, ts: seq<Token>, before: seq<string>, after: seq<string>, indent: int) {
    AwaitCall(ts).Ok?
    && before + [Indentation(indent) + AwaitHeader(AwaitCall(ts).value, name),
                 Indentation(indent + 1) + AwaitCheck] < after
    && after[|after| - 1] == Indentation(indent) + CallbackClose
  }

  /** The start of parseAwait's callback: its header at the statement's depth, then,
      one level deeper, the check that rethrows the error. */
  method OpenAwait(ctx: Context, call: string, name: string)
    modifies ctx
    ensures ctx.code == old(ctx.code) + [Indentation(old(ctx.indent)) + AwaitHeader(call, name),
                                         Indentation(old(ctx.indent) + 1) + AwaitCheck]
    ensures ctx.indent == old(ctx.indent) + 1
    ensures ctx.args == old(ctx.args) && ctx.vars == old(ctx.vars) && ctx.defers == old(ctx.defers)
    ensures ctx.tokens == old(ctx.tokens)
  {
    ctx.PushCodeLine(AwaitHeader(call, name));
    ctx.indent := ctx.indent + 1;
    ctx.PushCodeLine(AwaitCheck);
  }

  /** parseAwait: the call gets a callback taking the error and the targets; its
      body rethrows the error and then holds the rest of the statements, one level
      deeper. */
  method ParseAwait(v: Version, ctx: Context, name: string, ts: seq<Token>) returns (r: Outcome)
    requires ctx.args != ctx.vars
    modifies ctx, ctx.args, ctx.vars
    ensures r.Pass? ==> Advanced(ctx) && ctx.tokens == []
    ensures AwaitCall(ts).Err? ==> r == Fail(Thrown(v, AwaitCall(ts).failure)) && ctx.code == old(ctx.code)
    ensures r.Pass? ==> AwaitOpened(name, ts, old(ctx.code), ctx.code, ctx.indent)
    decreases 16 * (|ctx.tokens| + |ts|) + 12
  {
    var call := AwaitCallText(ts);
    if call.Err? {
      return Fail(Thrown(v, call.failure));
    }
    ghost var openCode := ctx.code + [Indentation(ctx.indent) + AwaitHeader(call.value, name),
                                      Indentation(ctx.indent + 1) + AwaitCheck];
    OpenAwait(ctx, call.value, name);
    ghost var lines, states;
    r, lines, states := Parse(v, ctx);
    if r.Fail? {
      return;
    }
    ghost var body := ctx.code;
    assert openCode <= body;
    ctx.indent := ctx.indent - 1;
    PrefixSnoc(openCode, body, Indentation(ctx.indent) + CallbackClose);
    ctx.PushCodeLine(CallbackClose);
  }

  /** parseDefer: a one-line defer queues its call, a defer block queues the block
      compiled at depth 3 in a context of its own (whose own deferred actions are
      dropped). */
  method ParseDefer(v: Version, ctx: Context, ts: seq<Token>) returns (r: Outcome, ghost block: seq<string>)
    requires ctx.args != ctx.vars
    modifies ctx, ctx.args, ctx.vars
    ensures ts == [] ==> r == Fail(Crash)
    ensures ts != [] && DeferLine(ts).Err? ==> r == Fail(Thrown(v, DeferLine(ts).failure))
    ensures r.Fail? ==> ctx.code == old(ctx.code)
    ensures r.Pass? ==> Advanced(ctx) && ctx.code == old(ctx.code) && ts != [] && DeferLine(ts).Ok?
    ensures ts != [] && DeferLine(ts).Ok? && DeferLine(ts).value.Some? ==> (
      r == Pass && ctx.defers == old(ctx.defers) + [DeferLine(ts).value.value] && ctx.tokens == old(ctx.tokens))
    ensures r.Pass? && DeferLine(ts).value.None? ==> (
      ctx.defers == old(ctx.defers) + [DeferBlock(block)] && ctx.tokens == Nested(v, old(ctx.tokens)).next)
    decreases 16 * (|ctx.tokens| + |ts|) + 12
  {
    block := [];
    if ts == [] {
      return Fail(Crash), block;
    }
    var line := DeferLine(ts);
    if line.Err? {
      return Fail(Thrown(v, line.failure)), block;
    }
    if line.value.Some? {
      ctx.defers := ctx.defers + [line.value.value];
      return Pass, block;
    }
    var c := NewContext(ctx);
    c.indent := 3;
    r := ParseNested(v, c, true);
    if r.Fail? {
      return;
    }
    block := c.code;
    ctx.defers := ctx.defers + [DeferBlock(c.code)];
    ctx.tokens := c.tokens;
  }

  // ---------------------------------------------------------------------------
  // if and for

  /** parseIf's parseBody: a branch compiled one level deeper into a callback, the
      closing brace at the statement's own depth. */
  method IfBody(v: Version, ctx: Context) returns (r: Outcome, code: string, ghost lines: seq<string>)
    requires ctx.args != ctx.vars
    modifies ctx, ctx.args, ctx.vars
    ensures ctx.code == old(ctx.code) && ctx.defers == old(ctx.defers)
    ensures r.Pass? ==> Advanced(ctx)
    ensures r.Pass? ==> ctx.tokens == Nested(v, old(ctx.tokens)).next && code == BrightRules.IfBranch(lines, ctx.indent)
    decreases 16 * |ctx.tokens| + 18
  {
    var c := NewContext(ctx);
    c.indent := ctx.indent + 1;
    r := ParseNested(v, c, true);
    lines := c.code;
    if r.Fail? {
      return r, "", lines;
    }
    ctx.tokens := c.tokens;
    code := "function ($$_callback) {\n" + Join(c.code, "\n") + "\n" + Indentation(ctx.indent) + "}";
  }

  /** The lines that follow an `if` block when the first of them starts with `else`
      or `elseif`: each such line adds its condition and branch (or just the branch),
      and the first other line is given back to the token stream. */
  method ElseChain(v: Version, ctx: Context)
      returns (r: Outcome, more: seq<string>, ghost heads: seq<seq<Token>>, ghost steps: seq<seq<string>>)
    requires ctx.args != ctx.vars
    modifies ctx, ctx.args, ctx.vars
    ensures ctx.code == old(ctx.code) && ctx.defers == old(ctx.defers)
    ensures r.Pass? ==> Advanced(ctx)
    ensures !(old(ctx.tokens) != [] && old(ctx.tokens)[0].kind == Keyword && old(ctx.tokens)[0].text in ["else", "elseif"]) ==>
      r == Pass && more == [] && ctx.tokens == old(ctx.tokens)
    ensures more == Concat(steps) && ElseSteps(heads, steps)
    decreases 16 * |ctx.tokens| + 4
  {
    more, heads, steps := [], [], [];
    r := Pass;
    if !(ctx.tokens != [] && ctx.tokens[0].kind == Keyword && ctx.tokens[0].text in ["else", "elseif"]) {
      return;
    }
    var stop := false;
    while ctx.tokens != [] && !stop
      invariant Advanced(ctx) && ctx.code == old(ctx.code) && ctx.defers == old(ctx.defers)
      invariant more == Concat(steps) && ElseSteps(heads, steps)
      decreases |ctx.tokens|, !stop
    {
      ghost var a0, v0 := ctx.args.items, ctx.vars.items;
      var step;
      ghost var head;
      r, step, stop, head := ElseLine(v, ctx);
      if r.Fail? {
        return;
      }
      PrefixTrans(old(ctx.args.items), a0, ctx.args.items);
      PrefixTrans(old(ctx.vars.items), v0, ctx.vars.items);
      if !stop {
        ElseStepsSnoc(heads, steps, head, step);
        heads, steps := heads + [head], steps + [step];
        more := more + step;
      }
    }
  }

  /** One line of an `else` chain: `elseif <condition> {` gives a condition and a
      branch, `else` a branch whatever follows it on the line, and any other line
      stops the chain and goes back to the token stream. */
  method ElseLine(v: Version, ctx: Context) returns (r: Outcome, step: seq<string>, stop: bool, ghost head: seq<Token>)
    requires ctx.args != ctx.vars && ctx.tokens != []
    modifies ctx, ctx.args, ctx.vars
    ensures ctx.code == old(ctx.code) && ctx.defers == old(ctx.defers)
    ensures r.Pass? ==> Advanced(ctx) && (stop || |ctx.tokens| < |old(ctx.tokens)|)
    ensures head == FirstLine(old(ctx.tokens)) && head != []
    ensures IsElseifLine(head) && ConditionOf(head[1..]).Err? ==> r == Fail(Thrown(v, ConditionOf(head[1..]).failure))
    ensures stop <==> !IsElseifLine(head) && !IsElseLine(head)
    ensures stop ==> r == Pass && step == [] && ctx.tokens == old(ctx.tokens)
    ensures r.Pass? && !stop ==> (ElseStep(head, step)
      && ctx.tokens == Nested(v, old(ctx.tokens)[LineLength(old(ctx.tokens))..]).next)
    decreases 16 * |ctx.tokens| + 3
  {
    step, stop := [], false;
    var split := ReadLine(ctx.tokens);
    var line := split.value.line;
    head := line;
    ctx.tokens := split.value.next;
    var t := line[0];
    var body;
    ghost var lines;
    if IsKeywordToken(t, "elseif") {
      var c := ParseCondition(line[1..]);
      if c.Err? {
        return Fail(Thrown(v, c.failure)), step, stop, head;
      }
      r, body, lines := IfBody(v, ctx);
      step := [c.value, body];
    } else if IsKeywordToken(t, "else") {
      r, body, lines := IfBody(v, ctx);
      step := [body];
    } else {
      ctx.tokens := line + ctx.tokens;
      r, stop := Pass, true;
    }
  }

  /** parseIf after its condition: the first branch, the `else` chain, then the code
      after the statement one level deeper. */
  method IfBlocks(v: Version, ctx: Context)
      returns (r: Outcome, more: seq<string>, next: seq<string>, ghost heads: seq<seq<Token>>, ghost steps: seq<seq<string>>)
    requires ctx.args != ctx.vars
    modifies ctx, ctx.args, ctx.vars
    ensures ctx.code == old(ctx.code) && ctx.defers == old(ctx.defers)
    ensures r.Pass? ==> Advanced(ctx) && |more| >= 1
    ensures r.Pass? ==> more[1..] == Concat(steps) && ElseSteps(heads, steps)
    decreases 16 * |ctx.tokens| + 19
  {
    more, next, heads, steps := [], [], [], [];
    var body;
    ghost var lines;
    r, body, lines := IfBody(v, ctx);
    if r.Fail? {
      return;
    }
    var chain;
    ghost var a0, v0 := ctx.args.items, ctx.vars.items;
    r, chain, heads, steps := ElseChain(v, ctx);
    if r.Fail? {
      return;
    }
    PrefixTrans(old(ctx.args.items), a0, ctx.args.items);
    PrefixTrans(old(ctx.vars.items), v0, ctx.vars.items);
    var c := NewContext(ctx);
    c.indent := ctx.indent + 1;
    ghost var a1, v1 := ctx.args.items, ctx.vars.items;
    r := ParseNested(v, c, false);
    if r.Fail? {
      return;
    }
    PrefixTrans(old(ctx.args.items), a1, ctx.args.items);
    PrefixTrans(old(ctx.vars.items), v1, ctx.vars.items);
    ctx.tokens := c.tokens;
    more, next := [body] + chain, c.code;
    assert more[1..] == chain;
  }

  /** parseIf: the condition and branch of the `if`, then those of the `elseif` and
      `else` lines that follow, and the rest of the enclosing block as the
      continuation, all in one ifCondition call. */
  method ParseIf(v: Version, ctx: Context, ts: seq<Token>)
      returns (r: Outcome, parts: seq<string>, next: seq<string>, ghost heads: seq<seq<Token>>, ghost steps: seq<seq<string>>)
    requires ctx.args != ctx.vars
    modifies ctx, ctx.args, ctx.vars
    ensures ts == [] ==> r == Fail(Crash)
    ensures ts != [] && !IsSymbol(ts[|ts| - 1], "{") ==> r == Fail(Thrown(v, ErrorAt(ts[|ts| - 1], "")))
    ensures r.Fail? ==> ctx.code == old(ctx.code)
    ensures r.Pass? ==> (
      Advanced(ctx) && ctx.defers == old(ctx.defers) && ts != []
      && |parts| >= 2 && parts[0] == "(" + CondText(ts[..|ts| - 1]) + ")"
      && ctx.code == old(ctx.code) + [Indentation(ctx.indent) + BrightRules.IfCode(parts, next, ctx.indent)])
    ensures r.Pass? ==> parts[2..] == Concat(steps) && ElseSteps(heads, steps)
    decreases 16 * (|ctx.tokens| + |ts|) + 12
  {
    parts, next, heads, steps := [], [], [], [];
    var cond := ParseCondition(ts);
    if cond.Err? {
      return Fail(Thrown(v, cond.failure)), parts, next, heads, steps;
    }
    var more, rest;
    r, more, rest, heads, steps := IfBlocks(v, ctx);
    if r.Fail? {
      return;
    }
    parts, next := [cond.value] + more, rest;
    assert parts[2..] == more[1..];
    ctx.PushCodeLine(BrightRules.IfCode(parts, next, ctx.indent));
    r := Pass;
  }

  /** parseFor's blocks: the loop body (with a `return` added) and the code after the
      loop, each compiled one level deeper. */
  method ForBlocks(v: Version, ctx: Context) returns (r: Outcome, body: seq<string>, next: seq<string>)
    requires ctx.args != ctx.vars
    modifies ctx, ctx.args, ctx.vars
    ensures ctx.code == old(ctx.code) && ctx.defers == old(ctx.defers)
    ensures r.Pass? ==> Advanced(ctx)
    decreases 16 * |ctx.tokens| + 18
  {
    body, next := [], [];
    var c := NewContext(ctx);
    c.indent := ctx.indent + 1;
    r := ParseNested(v, c, true);
    if r.Fail? {
      return;
    }
    ctx.tokens := c.tokens;
    body := c.code;
    var d := NewContext(ctx);
    d.indent := ctx.indent + 1;
    r := ParseNested(v, d, false);
    if r.Fail? {
      return;
    }
    ctx.tokens := d.tokens;
    next := d.code;
  }

  /** parseFor: `for key in obj {` walks the object's keys, `for cond {` and `for {`
      loop on a condition; the code after the loop is its continuation. */
  method ParseFor(v: Version, ctx: Context, ts: seq<Token>) returns (r: Outcome, ghost body: seq<string>, ghost next: seq<string>)
    requires ctx.args != ctx.vars
    modifies ctx, ctx.args, ctx.vars
    ensures ts == [] ==> r == Fail(Crash)
    ensures BrightRules.IsForEach(ts) && ts[0].kind != Identifier ==> r == Fail(Thrown(v, ErrorAt(ts[0], "")))
    ensures !BrightRules.IsForEach(ts) && BrightRules.ForCondition(ts).Err? ==> r == Fail(Thrown(v, BrightRules.ForCondition(ts).failure))
    ensures r.Fail? ==> ctx.code == old(ctx.code)
    ensures r.Pass? ==> Advanced(ctx) && ctx.defers == old(ctx.defers)
    ensures r.Pass? && BrightRules.IsForEach(ts) ==>
      ctx.code == old(ctx.code) + [Indentation(ctx.indent) + BrightRules.ForEachCode(BrightRules.ForEachObject(ts), ts[0].text, body, next, ctx.indent)]
    ensures r.Pass? && !BrightRules.IsForEach(ts) ==> (
      BrightRules.ForCondition(ts).Ok? &&
      ctx.code == old(ctx.code) + [Indentation(ctx.indent) + BrightRules.ConditionLoopCode(BrightRules.ForCondition(ts).value, body, next, ctx.indent)])
    decreases 16 * (|ctx.tokens| + |ts|) + 12
  {
    body, next := [], [];
    if |ts| >= 3 && ts[1].kind == Keyword && ts[1].text == "in" {
      if ts[0].kind != Identifier {
        return Fail(Thrown(v, ErrorAt(ts[0], ""))), body, next;
      }
      var key := ts[0].text;
      var obj := JoinTexts(ts[2..|ts| - 1]);
      var b, n;
      r, b, n := ForBlocks(v, ctx);
      if r.Fail? {
        return;
      }
      body, next := b, n;
      ctx.PushCodeLine(BrightRules.ForEachCode(obj, key, b, n, ctx.indent));
    } else {
      var condition: string;
      if |ts| == 1 && ts[0].kind == Symbol && ts[0].text == "{" {
        condition := "true";
      } else {
        var c := ParseCondition(ts);
        if c.Err? {
          return Fail(Thrown(v, c.failure)), body, next;
        }
        condition := c.value;
      }
      var b, n;
      r, b, n := ForBlocks(v, ctx);
      if r.Fail? {
        return;
      }
      body, next := b, n;
      ctx.PushCodeLine(BrightRules.ConditionLoopCode(condition, b, n, ctx.indent));
    }
    return Pass, body, next;
  }

  // ---------------------------------------------------------------------------
  // The top level

  /** syntax.parse on a token list: a context at depth 2 with empty lists parses the
      tokens with a `return` added at the end, and the result is wrapped into the
      compiled function. */
  method Compile(v: Version, tokens: seq<Token>) returns (r: Result<string>, ghost args: seq<string>, ghost vars: seq<string>,
                                                          ghost defers: seq<string>, ghost code: seq<string>)
    ensures r.Ok? ==> r.value == Wrap(args, vars, defers, code)
    ensures tokens == [] ==> r == Ok(Wrap([], [], [], []))
  {
    var a := new Names([]);
    var w := new Names([]);
    var ctx := new Context(a, w, WithReturn(tokens), 2);
    var o, lines, states := Parse(v, ctx);
    args, vars, defers, code := a.items, w.items, ctx.defers, ctx.code;
    if o.Fail? {
      return Err(o.failure), args, vars, defers, code;
    }
    return Ok(Wrap(a.items, w.items, ctx.defers, ctx.code)), args, vars, defers, code;
  }
}
