/** The intermediate (Tea) code generator (build/tea.js, syntax part) as an imperative
    parser over the same kind of context as the bright one: handlers update the
    context's code, deferred actions, indentation and remaining tokens in place, and
    nested contexts share its argument and variable lists. */
module TeaParser {
  import opened Tokens
  import opened SyntaxCommon
  import opened BrightRules
  import opened TeaRules
  import opened ParseContext

  // ---------------------------------------------------------------------------
  // Statements without nested blocks

  /** parseExpression's loop: the texts of the tokens, or an error at the first one
      an expression may not contain. */
  method ExpressionTextOf(ts: seq<Token>) returns (r: Result<string>)
    ensures r == ExpressionText(ts)
  {
    var code := "";
    var i := 0;
    while i < |ts|
      invariant 0 <= i <= |ts|
      invariant code == Texts(ts[..i])
      invariant forall k :: 0 <= k < i ==> ExpressionToken(ts[k])
    {
      var t := ts[i];
      if !(t.kind == Identifier || t.kind == Number || t.kind == Str || t.kind == Symbol) {
        ExpressionFirstError(ts, i);
        return Err(ErrorAt(t, ""));
      }
      assert ts[..i + 1] == ts[..i] + [t];
      TextsAppend(ts[..i], [t]);
      code := code + t.text;
      i := i + 1;
    }
    assert ts[..i] == ts;
    return Ok(code);
  }

  /** parseExpression: the tokens' texts run together, trimmed, as one statement;
      a keyword or other kind of token is an error at that token. */
  method ParseExpression(ctx: Context, name: string, ts: seq<Token>) returns (r: Outcome)
    modifies ctx
    ensures r == OutcomeOf(ExpressionCode(name, ts))
    ensures r.Pass? ==> ctx.code == old(ctx.code) + [Indentation(ctx.indent) + ExpressionCode(name, ts).value]
    ensures r.Fail? ==> ctx.code == old(ctx.code)
    ensures Same(ctx)
  {
    var code := ExpressionTextOf(ts);
    if code.Err? {
      return Fail(code.failure);
    }
    ctx.PushCodeLine((if name != "" then name + " = " else "") + Trim(code.value) + ";");
    return Pass;
  }

  /** parseArgument and parseVar: the identifiers of the list are added to the
      given list of names; commas may separate them. */
  method ParseNameList(list: Names, ts: seq<Token>) returns (r: Outcome)
    modifies list
    ensures r == OutcomeOf(ArgumentList(ts, false))
    ensures r.Pass? ==> list.items == old(list.items) + ArgumentList(ts, false).value
  {
    ghost var start := list.items;
    var isComma := false;
    var i := 0;
    assert ts[0..] == ts && list.items[|start|..] == [];
    PrefixedNothing(ArgumentList(ts, false));
    while i < |ts|
      invariant 0 <= i <= |ts|
      invariant start <= list.items
      invariant ArgumentList(ts, false) == Prefixed(list.items[|start|..], ArgumentList(ts[i..], isComma))
    {
      var t := ts[i];
      assert ts[i..][0] == t && ts[i..][1..] == ts[i + 1..];
      ghost var pre := list.items[|start|..];
      if t.kind == Identifier {
        isComma := false;
        list.Push(t.text);
        assert list.items[|start|..] == pre + [t.text];
        match ArgumentList(ts[i + 1..], false)
        case Ok(ns) =>
          assert pre + ([t.text] + ns) == pre + [t.text] + ns;
        case Err(_) =>
      } else if IsSymbol(t, ",") && !isComma {
        isComma := true;
      } else {
        return Fail(ErrorAt(t, ""));
      }
      i := i + 1;
    }
    assert ts[i..] == [];
    return Pass;
  }

  /** parseRequire: the module is loaded into the first target, if any. */
  method ParseRequire(ctx: Context, names: seq<string>, ts: seq<Token>) returns (r: Outcome)
    modifies ctx
    ensures r == OutcomeOf(RequireCode(names, ts))
    ensures r.Pass? ==> ctx.code == old(ctx.code) + [Indentation(ctx.indent) + RequireCode(names, ts).value]
    ensures r.Fail? ==> ctx.code == old(ctx.code)
    ensures Same(ctx)
  {
    if ts == [] {
      return Fail(Crash);
    }
    if |ts| != 1 {
      return Fail(ErrorAt(ts[0], ""));
    }
    if !(ts[0].kind == Identifier || ts[0].kind == Str) {
      return Fail(ErrorAt(ts[0], ""));
    }
    ctx.PushCodeLine((if names != [] then names[0] + " = " else "") + "require(" + ts[0].text + ");");
    return Pass;
  }

  /** parseReturn: the values (after `null`, the error) passed to the block's callback
      or, outside a nested block, to the top-level one. */
  method ParseReturn(ctx: Context, ts: seq<Token>, nested: bool) returns (r: Outcome)
    modifies ctx
    ensures ts == [] ==> r == Pass && ctx.code == old(ctx.code) + [Indentation(ctx.indent) + ReturnLine([], nested)]
    ensures ts != [] ==> r == OutcomeOf(MultiValue(ts))
    ensures ts != [] && r.Pass? ==> ctx.code == old(ctx.code) + [Indentation(ctx.indent) + ReturnLine(MultiValue(ts).value, nested)]
    ensures r.Fail? ==> ctx.code == old(ctx.code)
    ensures Same(ctx)
  {
    var values: seq<string> := [];
    if ts != [] {
      var res := ParseMultiValue(ts);
      if res.Err? {
        return Fail(res.failure);
      }
      values := res.value;
    }
    ctx.PushCodeLine("return $$_callback" + (if nested then "" else "_global") + "(" + Join(["null"] + values, ", ") + ");");
    return Pass;
  }

  // ---------------------------------------------------------------------------
  // syntax.parse and the handlers with nested blocks.  Termination is by the
  // remaining tokens, the statement's own tokens counted for a handler, as in the
  // bright parser.

  /** syntax.parse on a context: the remaining tokens are compiled line by line until
      they run out or a statement fails. */
  method Parse(ctx: Context) returns (r: Outcome, ghost lines: seq<seq<Token>>, ghost states: seq<seq<string>>)
    requires ctx.args != ctx.vars
    modifies ctx, ctx.args, ctx.vars
    ensures r.Pass? ==> Advanced(ctx) && ctx.tokens == []
    ensures r.Pass? ==> StatementSteps(lines, states, ctx.indent) && states[0] == old(ctx.code) && states[|lines|] == ctx.code
    ensures r.Pass? && old(ctx.tokens) != [] ==> lines != [] && lines[0] == FirstLine(old(ctx.tokens))
    decreases 16 * |ctx.tokens|
  {
    lines, states := [], [ctx.code];
    while ctx.tokens != []
      invariant Advanced(ctx)
      invariant StatementSteps(lines, states, ctx.indent) && states[0] == old(ctx.code) && states[|lines|] == ctx.code
      invariant lines == [] ==> ctx.tokens == old(ctx.tokens)
      invariant lines != [] ==> old(ctx.tokens) != [] && lines[0] == FirstLine(old(ctx.tokens))
      decreases |ctx.tokens|
    {
      var split := ReadLine(ctx.tokens);
      var line := split.value.line;
      ctx.tokens := split.value.next;
      r := Statement(ctx, line);
      if r.Fail? {
        return;
      }
      StatementStepsSnoc(lines, states, line, ctx.code, ctx.indent);
      lines, states := lines + [line], states + [ctx.code];
    }
    return Pass, lines, states;
  }

  /** What one statement does to the code: it only appends, and a statement of a
      single line (an expression, a `require`, a `break` or a `continue`) appends
      exactly its line. */
  predicate StatementStep(line: seq<Token>, before: seq<string>, after: seq<string>, indent: int) {
    line != [] && before <= after
    && (line[0].kind != Keyword ==>
          ExpressionCode("", line).Ok? && after == before + [Indentation(indent) + ExpressionCode("", line).value])
    && (IsKeywordToken(line[0], "require") && |line| >= 2 ==>
          RequireCode([], line[1..]).Ok? && after == before + [Indentation(indent) + RequireCode([], line[1..]).value])
    && (IsKeywordToken(line[0], "break") ==> after == before + [Indentation(indent) + "return $$_break(null);"])
    && (IsKeywordToken(line[0], "continue") ==> after == before + [Indentation(indent) + "return $$_continue(null);"])
  }

  /** The statements of a program, in order: the code goes through one state per
      statement, each obtained from the one before by that statement. */
  predicate StatementSteps(lines: seq<seq<Token>>, states: seq<seq<string>>, indent: int)
    decreases |lines|
  {
    |states| == |lines| + 1
    && (lines != [] ==>
          StatementSteps(lines[..|lines| - 1], states[..|lines|], indent)
          && StatementStep(lines[|lines| - 1], states[|lines| - 1], states[|lines|], indent))
  }

  lemma StatementStepsSnoc(lines: seq<seq<Token>>, states: seq<seq<string>>, line: seq<Token>, after: seq<string>, indent: int)
    requires StatementSteps(lines, states, indent) && StatementStep(line, states[|lines|], after, indent)
    ensures StatementSteps(lines + [line], states + [after], indent)
  {
    assert (lines + [line])[..|lines|] == lines;
    assert (states + [after])[..|lines| + 1] == states;
  }

  /** Statement `i` of the program takes the code from state `i` to state `i + 1`. */
  lemma {:induction false} StatementStepAt(lines: seq<seq<Token>>, states: seq<seq<string>>, indent: int, i: int)
    requires StatementSteps(lines, states, indent) && 0 <= i < |lines|
    ensures StatementStep(lines[i], states[i], states[i + 1], indent)
    decreases |lines|
  {
    if i < |lines| - 1 {
      StatementStepAt(lines[..|lines| - 1], states[..|lines|], indent, i);
    }
  }

  /** One statement of syntax.parse: refused before any code when its keyword is
      unknown or lacks an operand; an expression when it does not start with a
      keyword. */
  method Statement(ctx: Context, line: seq<Token>) returns (r: Outcome)
    requires line != [] && ctx.args != ctx.vars
    modifies ctx, ctx.args, ctx.vars
    ensures r.Pass? ==> Advanced(ctx)
    ensures TeaRefusal(line).Some? ==> r == Fail(TeaRefusal(line).value) && ctx.code == old(ctx.code)
    ensures r.Pass? ==> StatementStep(line, old(ctx.code), ctx.code, ctx.indent)
    ensures line[0].kind != Keyword ==> r == OutcomeOf(ExpressionCode("", line))
    ensures IsKeywordToken(line[0], "require") && |line| >= 2 ==> r == OutcomeOf(RequireCode([], line[1..]))
    ensures IsKeywordToken(line[0], "break") || IsKeywordToken(line[0], "continue") ==> r == Pass
    decreases 16 * (|ctx.tokens| + |line|) - 1
  {
    var refusal := TeaRefusal(line);
    if refusal.Some? {
      return Fail(refusal.value);
    }
    var t := line[0];
    var rest := line[1..];
    if t.kind != Keyword {
      r := ParseExpression(ctx, "", line);
    } else if t.text == "argument" {
      r := ParseNameList(ctx.args, rest);
    } else if t.text == "var" {
      r := ParseNameList(ctx.vars, rest);
    } else if t.text == "require" {
      r := ParseRequire(ctx, [], rest);
    } else if t.text == "return" {
      r := ParseReturn(ctx, rest, t.nested);
    } else if t.text == "break" {
      ctx.PushCodeLine("return $$_break(null);");
      r := Pass;
    } else if t.text == "continue" {
      ctx.PushCodeLine("return $$_continue(null);");
      r := Pass;
    } else {
      r := StatementBlock(ctx, t, rest);
    }
  }

  /** The rest of parse's dispatch: the statements that compile a nested block or the
      rest of the input into a callback. */
  method StatementBlock(ctx: Context, t: Token, rest: seq<Token>) returns (r: Outcome)
    requires ctx.args != ctx.vars
    modifies ctx, ctx.args, ctx.vars
    ensures r.Pass? ==> Advanced(ctx)
    decreases 16 * (|ctx.tokens| + |rest|) + 13
  {
    if t.text == "let" {
      r := ParseLet(ctx, rest);
    } else if t.text == "await" {
      r := ParseAwait(ctx, [], rest);
    } else if t.text == "defer" {
      ghost var block;
      r, block := ParseDefer(ctx, rest);
    } else if t.text == "if" {
      ghost var parts, next, heads, steps;
      r, parts, next, heads, steps := ParseIf(ctx, rest);
    } else {
      ghost var body, next;
      r, body, next := ParseFor(ctx, rest);
    }
  }

  /** One turn of parseNested's loop, on the first line of `ts`. */
  lemma NestedTurn(ts: seq<Token>, brace: int, body: seq<Token>)
    requires ts != []
    ensures var n := LineLength(ts);
            var b := NestedStep(ts[..n], brace);
            NestedFrom(ts, brace, body)
            == if b < 0 then BodySplit(body, (if n > 1 then ts[..n][1..] else []) + ts[n..])
               else NestedFrom(ts[n..], b, body + ts[..n])
  {
  }

  /** parseNested's loop: the block's lines and what follows the line that closes
      it. */
  method NestedSplit(ts: seq<Token>) returns (r: BodySplit)
    ensures r == NestedBody(ts)
  {
    var rest := ts;
    var body: seq<Token> := [];
    var brace := 0;
    var closed := false;
    while rest != [] && !closed
      invariant !closed ==> NestedFrom(rest, brace, body) == NestedBody(ts)
      invariant closed ==> BodySplit(body, rest) == NestedBody(ts)
      decreases |rest|, !closed
    {
      var split := ReadLine(rest);
      var line := split.value.line;
      var next := split.value.next;
      ghost var n := LineLength(rest);
      assert line == rest[..n] && next == rest[n..];
      ghost var b0 := brace;
      var firstT := line[0];
      var lastT := line[|line| - 1];
      if IsSymbol(firstT, "}") {
        brace := brace - 1;
      } else if IsSymbol(lastT, "{") {
        brace := brace + 1;
      }
      assert brace == NestedStep(line, b0);
      NestedTurn(rest, b0, body);
      if brace < 0 {
        if |line| > 1 {
          next := line[1..] + next;
        } else {
          assert [] + next == next;
        }
        rest := next;
        closed := true;
      } else {
        body := body + line;
        rest := next;
      }
    }
    return BodySplit(body, rest);
  }

  /** parseNested: the block's tokens (with a nested return added when asked) are
      parsed into this context, and parsing goes on after the block. */
  method ParseNested(ctx: Context, isReturn: bool) returns (r: Outcome)
    requires ctx.args != ctx.vars
    modifies ctx, ctx.args, ctx.vars
    ensures r.Pass? ==> Advanced(ctx) && ctx.tokens == NestedBody(old(ctx.tokens)).next
    decreases 16 * |ctx.tokens| + 17
  {
    var split := NestedSplit(ctx.tokens);
    var body := split.body;
    if isReturn {
      body := TeaAddReturn(body, true);
    }
    ctx.tokens := body;
    ghost var lines, states;
    r, lines, states := Parse(ctx);
    if r.Fail? {
      return;
    }
    ctx.tokens := split.next;
  }

  /** What parseLet leaves for each plan, from the code and tokens before it: an
      expression or a require pushes its one line (or refuses the operand); an await
      opens the callback that checks the error and binds the targets in order (or
      refuses the call). */
  ghost predicate LetDone(plan: TeaLetPlan, r: Outcome, before: seq<string>, after: seq<string>,
                          tokens: seq<Token>, indent: int) {
    match plan
    case ExpressionLet(name, expr) =>
      r == OutcomeOf(ExpressionCode(name, expr))
      && (r.Pass? ==> after == before + [Indentation(indent) + ExpressionCode(name, expr).value])
    case RequireLet(names, operand) =>
      r == OutcomeOf(RequireCode(names, operand))
      && (r.Pass? ==> after == before + [Indentation(indent) + RequireCode(names, operand).value])
    case AwaitLet(names, call) =>
      (TeaAwaitCall(call).Err? ==> r == Fail(TeaAwaitCall(call).failure) && after == before)
      && (r.Pass? ==> AwaitOpened(names, call, before, after, indent) && tokens == [])
  }

  /** parseLet: the decision of TeaLetStatement, then await, require or an
      expression. */
  method ParseLet(ctx: Context, ts: seq<Token>) returns (r: Outcome)
    requires ctx.args != ctx.vars
    modifies ctx, ctx.args, ctx.vars
    ensures r.Pass? ==> Advanced(ctx)
    ensures ts == [] ==> r == Fail(Crash)
    ensures ts != [] && TeaLetStatement(ts).Err? ==> r == Fail(TeaLetStatement(ts).failure) && ctx.code == old(ctx.code)
    ensures ts != [] && TeaLetStatement(ts).Ok? ==>
      LetDone(TeaLetStatement(ts).value, r, old(ctx.code), ctx.code, ctx.tokens, ctx.indent)
    decreases 16 * (|ctx.tokens| + |ts|) + 12
  {
    if ts == [] {
      return Fail(Crash);
    }
    var plan := TeaLetStatement(ts);
    if plan.Err? {
      return Fail(plan.failure);
    }
    TeaLetOperandShorter(ts);
    r := RunLet(ctx, plan.value, |ts|);
  }

  /** parseLet once the plan is known: the await, the require or the expression. */
  method RunLet(ctx: Context, let: TeaLetPlan, ghost bound: nat) returns (r: Outcome)
    requires ctx.args != ctx.vars
    requires let.AwaitLet? ==> |let.call| < bound
    modifies ctx, ctx.args, ctx.vars
    ensures r.Pass? ==> Advanced(ctx)
    ensures LetDone(let, r, old(ctx.code), ctx.code, ctx.tokens, ctx.indent)
    decreases 16 * (|ctx.tokens| + bound) + 11
  {
    match let
    case AwaitLet(names, call) =>
      r := ParseAwait(ctx, names, call);
    case RequireLet(names, operand) =>
      r := ParseRequire(ctx, names, operand);
    case ExpressionLet(name, expr) =>
      r := ParseExpression(ctx, name, expr);
  }

  /** The call text of parseAwait: a sleep for a lone number, otherwise built by its
      `call += t.text` loops. */
  method AwaitCallText(ts: seq<Token>) returns (r: Result<string>)
    ensures r == TeaAwaitCall(ts)
  {
    if |ts| == 1 && ts[0].kind == Number {
      return Ok("$$_runtime.sleep(" + ts[0].text + ", ");
    }
    if ts == [] {
      return Err(Crash);
    }
    if ts[0].kind != Identifier {
      return Err(ErrorAt(ts[0], ""));
    }
    var call: string;
    if IsSymbol(ts[|ts| - 1], ")") {
      call := JoinTexts(ts[..|ts| - 1]);
      if !(|ts| >= 2 && IsSymbol(ts[|ts| - 2], "(")) {
        call := call + ", ";
      }
    } else {
      call := JoinTexts(ts);
      call := call + "(";
    }
    assert call == AwaitCall(ts).value;
    return Ok(call);
  }

  /** The start of parseAwait's callback: its header at the statement's depth, then,
      one level deeper, the error check and the copies of the parameters into the
      targets. */
  method OpenAwait(ctx: Context, call: string, names: seq<string>)
    modifies ctx
    ensures ctx.code == old(ctx.code) + [Indentation(old(ctx.indent)) + TeaAwaitHeader(call, |names|),
                                         Indentation(old(ctx.indent) + 1) + ErrorCheck]
                        + Indented(AwaitBindings(names), old(ctx.indent) + 1)
    ensures ctx.indent == old(ctx.indent) + 1
    ensures ctx.args == old(ctx.args) && ctx.vars == old(ctx.vars) && ctx.defers == old(ctx.defers)
    ensures ctx.tokens == old(ctx.tokens)
  {
    var code := MultiArgumentsCode(names);
    assert code.args == ArgSlots(|names|);
    assert code.init == AwaitBindings(names);
    ctx.PushCodeLine(call + "function ($$_err" + (if |names| > 0 then ", " + Join(code.args, ", ") else "") + ") {");
    ctx.indent := ctx.indent + 1;
    ctx.PushCodeLine(ErrorCheck);
    PushLines(ctx, code.init);
  }

  /** The code a passing parseAwait leaves after `before`: the call's header with the
      error and one callback parameter per target, the error check, the i-th target
      bound from `$$_arg_i`, then the rest of the statements, closed by the
      callback's end. */
  ghost predicate AwaitOpened(names: seq<string>, ts: seq<Token>, before: seq<string>, after: seq<string>, indent: int) {
    TeaAwaitCall(ts).Ok?
    && before + [Indentation(indent) + TeaAwaitHeader(TeaAwaitCall(ts).value, |names|),
                 Indentation(indent + 1) + ErrorCheck]
       + Indented(AwaitBindings(names), indent + 1) < after
    && after[|after| - 1] == Indentation(indent) + CallbackClose
  }

  /** parseAwait: the call gets a callback taking the error and one parameter per
      target; its body throws a failed call's error, copies the parameters into the
      targets and then holds the rest of the statements, one level deeper. */
  method ParseAwait(ctx: Context, names: seq<string>, ts: seq<Token>) returns (r: Outcome)
    requires ctx.args != ctx.vars
    modifies ctx, ctx.args, ctx.vars
    ensures r.Pass? ==> Advanced(ctx) && ctx.tokens == []
    ensures TeaAwaitCall(ts).Err? ==> r == Fail(TeaAwaitCall(ts).failure) && ctx.code == old(ctx.code)
    ensures r.Pass? ==> AwaitOpened(names, ts, old(ctx.code), ctx.code, ctx.indent)
    decreases 16 * (|ctx.tokens| + |ts|) + 12
  {
    var call := AwaitCallText(ts);
    if call.Err? {
      return Fail(call.failure);
    }
    ghost var openCode := ctx.code + [Indentation(ctx.indent) + TeaAwaitHeader(call.value, |names|),
                                      Indentation(ctx.indent + 1) + ErrorCheck]
                          + Indented(AwaitBindings(names), ctx.indent + 1);
    OpenAwait(ctx, call.value, names);
    ghost var lines, states;
    r, lines, states := Parse(ctx);
    if r.Fail? {
      return;
    }
    ghost var body := ctx.code;
    assert openCode <= body;
    ctx.indent := ctx.indent - 1;
    PrefixSnoc(openCode, body, Indentation(ctx.indent) + CallbackClose);
    ctx.PushCodeLine(CallbackClose);
  }

  /** parseDefer: a one-line defer queues its call, a defer block queues the block
      compiled at depth 3 in a context of its own (whose own deferred actions are
      dropped). */
  method ParseDefer(ctx: Context, ts: seq<Token>) returns (r: Outcome, ghost block: seq<string>)
    requires ctx.args != ctx.vars
    modifies ctx, ctx.args, ctx.vars
    ensures ts == [] ==> r == Fail(Crash)
    ensures ts != [] && DeferLine(ts).Err? ==> r == Fail(DeferLine(ts).failure)
    ensures r.Fail? ==> ctx.code == old(ctx.code)
    ensures r.Pass? ==> Advanced(ctx) && ctx.code == old(ctx.code) && ts != [] && DeferLine(ts).Ok?
    ensures ts != [] && DeferLine(ts).Ok? && DeferLine(ts).value.Some? ==> (
      r == Pass && ctx.defers == old(ctx.defers) + [DeferLine(ts).value.value] && ctx.tokens == old(ctx.tokens))
    ensures r.Pass? && DeferLine(ts).value.None? ==> (
      ctx.defers == old(ctx.defers) + [DeferBlock(block)] && ctx.tokens == NestedBody(old(ctx.tokens)).next)
    decreases 16 * (|ctx.tokens| + |ts|) + 12
  {
    block := [];
    if ts == [] {
      return Fail(Crash), block;
    }
    var line := DeferLine(ts);
    if line.Err? {
      return Fail(line.failure), block;
    }
    if line.value.Some? {
      ctx.defers := ctx.defers + [line.value.value];
      return Pass, block;
    }
    var c := NewContext(ctx);
    c.indent := 3;
    r := ParseNested(c, true);
    if r.Fail? {
      return;
    }
    block := c.code;
    ctx.defers := ctx.defers + [DeferBlock(c.code)];
    ctx.tokens := c.tokens;
  }

  /** parseIf's parseBody: a branch compiled one level deeper, with a nested return,
      into a callback whose closing brace is at the statement's own depth. */
  method IfBody(ctx: Context) returns (r: Outcome, code: string, ghost lines: seq<string>)
    requires ctx.args != ctx.vars
    modifies ctx, ctx.args, ctx.vars
    ensures ctx.code == old(ctx.code) && ctx.defers == old(ctx.defers)
    ensures r.Pass? ==> Advanced(ctx)
    ensures r.Pass? ==> ctx.tokens == NestedBody(old(ctx.tokens)).next && code == IfBranch(lines, ctx.indent)
    decreases 16 * |ctx.tokens| + 18
  {
    var c := NewContext(ctx);
    c.indent := ctx.indent + 1;
    r := ParseNested(c, true);
    lines := c.code;
    if r.Fail? {
      return r, "", lines;
    }
    ctx.tokens := c.tokens;
    code := "function ($$_callback) {\n" + Join(c.code, "\n") + "\n" + Indentation(ctx.indent) + "}";
  }

  /** The `elseif` and `else` lines that follow an `if` block: each adds its condition
      and branch (or just the branch), and the first other line is given back to the
      token stream. */
  method ElseChain(ctx: Context) returns (r: Outcome, more: seq<string>, ghost heads: seq<seq<Token>>, ghost steps: seq<seq<string>>)
    requires ctx.args != ctx.vars
    modifies ctx, ctx.args, ctx.vars
    ensures ctx.code == old(ctx.code) && ctx.defers == old(ctx.defers)
    ensures r.Pass? ==> Advanced(ctx)
    ensures !(old(ctx.tokens) != [] && old(ctx.tokens)[0].kind == Keyword
              && (old(ctx.tokens)[0].text == "else" || old(ctx.tokens)[0].text == "elseif")) ==>
      r == Pass && more == [] && ctx.tokens == old(ctx.tokens)
    ensures more == Concat(steps) && ElseSteps(heads, steps)
    decreases 16 * |ctx.tokens| + 4
  {
    more, heads, steps := [], [], [];
    r := Pass;
    if !(ctx.tokens != [] && ctx.tokens[0].kind == Keyword && (ctx.tokens[0].text == "else" || ctx.tokens[0].text == "elseif")) {
      return;
    }
    var stop := false;
    while ctx.tokens != [] && !stop
      invariant Advanced(ctx) && ctx.code == old(ctx.code) && ctx.defers == old(ctx.defers)
      invariant more == Concat(steps) && ElseSteps(heads, steps)
      decreases |ctx.tokens|, !stop
    {
      ghost var a0, v0 := ctx.args.items, ctx.vars.items;
      var step;
      ghost var head;
      r, step, stop, head := ElseLine(ctx);
      if r.Fail? {
        return;
      }
      PrefixTrans(old(ctx.args.items), a0, ctx.args.items);
      PrefixTrans(old(ctx.vars.items), v0, ctx.vars.items);
      if !stop {
        ElseStepsSnoc(heads, steps, head, step);
        heads, steps := heads + [head], steps + [step];
        more := more + step;
      }
    }
  }

  /** One line of an `else` chain: `elseif <condition> {` gives a condition and a
      branch, `else {` a branch (Tea accepts any number of them), and any other line
      stops the chain and goes back to the token stream. */
  method ElseLine(ctx: Context) returns (r: Outcome, step: seq<string>, stop: bool, ghost head: seq<Token>)
    requires ctx.args != ctx.vars && ctx.tokens != []
    modifies ctx, ctx.args, ctx.vars
    ensures ctx.code == old(ctx.code) && ctx.defers == old(ctx.defers)
    ensures r.Pass? ==> Advanced(ctx) && (stop || |ctx.tokens| < |old(ctx.tokens)|)
    ensures head == FirstLine(old(ctx.tokens)) && head != []
    ensures IsElseifLine(head) && ConditionOf(head[1..]).Err? ==> r == Fail(ConditionOf(head[1..]).failure)
    ensures stop <==> !IsElseifLine(head) && !IsElseLine(head)
    ensures stop ==> r == Pass && step == [] && ctx.tokens == old(ctx.tokens)
    ensures r.Pass? && !stop ==> (ElseStep(head, step)
      && ctx.tokens == NestedBody(old(ctx.tokens)[LineLength(old(ctx.tokens))..]).next)
    decreases 16 * |ctx.tokens| + 3
  {
    step, stop := [], false;
    var split := ReadLine(ctx.tokens);
    var line := split.value.line;
    head := line;
    ctx.tokens := split.value.next;
    var t := line[0];
    var body;
    ghost var lines;
    if IsKeywordToken(t, "elseif") {
      var c := ParseCondition(line[1..]);
      if c.Err? {
        return Fail(c.failure), step, stop, head;
      }
      r, body, lines := IfBody(ctx);
      step := [c.value, body];
    } else if IsKeywordToken(t, "else") {
      r, body, lines := IfBody(ctx);
      step := [body];
    } else {
      ctx.tokens := line + ctx.tokens;
      r, stop := Pass, true;
    }
  }

  /** parseIf after its condition: the first branch, the `else` chain, then the code
      after the statement one level deeper (without a return of its own). */
  method IfBlocks(ctx: Context)
      returns (r: Outcome, more: seq<string>, next: seq<string>, ghost heads: seq<seq<Token>>, ghost steps: seq<seq<string>>)
    requires ctx.args != ctx.vars
    modifies ctx, ctx.args, ctx.vars
    ensures ctx.code == old(ctx.code) && ctx.defers == old(ctx.defers)
    ensures r.Pass? ==> Advanced(ctx) && |more| >= 1
    ensures r.Pass? ==> more[1..] == Concat(steps) && ElseSteps(heads, steps)
    decreases 16 * |ctx.tokens| + 19
  {
    more, next, heads, steps := [], [], [], [];
    var body;
    ghost var lines;
    r, body, lines := IfBody(ctx);
    if r.Fail? {
      return;
    }
    var chain;
    ghost var a0, v0 := ctx.args.items, ctx.vars.items;
    r, chain, heads, steps := ElseChain(ctx);
    if r.Fail? {
      return;
    }
    PrefixTrans(old(ctx.args.items), a0, ctx.args.items);
    PrefixTrans(old(ctx.vars.items), v0, ctx.vars.items);
    var c := NewContext(ctx);
    c.indent := ctx.indent + 1;
    ghost var a1, v1 := ctx.args.items, ctx.vars.items;
    r := ParseNested(c, false);
    if r.Fail? {
      return;
    }
    PrefixTrans(old(ctx.args.items), a1, ctx.args.items);
    PrefixTrans(old(ctx.vars.items), v1, ctx.vars.items);
    ctx.tokens := c.tokens;
    more, next := [body] + chain, c.code;
    assert more[1..] == chain;
  }

  /** parseIf: the condition and branch of the `if`, then those of each `elseif` and
      `else` on the lines that follow, and the rest of the enclosing block as the
      continuation, all in one ifCondition call. */
  method ParseIf(ctx: Context, ts: seq<Token>)
      returns (r: Outcome, ghost parts: seq<string>, ghost next: seq<string>, ghost heads: seq<seq<Token>>, ghost steps: seq<seq<string>>)
    requires ctx.args != ctx.vars
    modifies ctx, ctx.args, ctx.vars
    ensures ts == [] ==> r == Fail(Crash)
    ensures ts != [] && !IsSymbol(ts[|ts| - 1], "{") ==> r == Fail(ErrorAt(ts[|ts| - 1], ""))
    ensures r.Fail? ==> ctx.code == old(ctx.code)
    ensures r.Pass? ==> (
      Advanced(ctx) && ctx.defers == old(ctx.defers) && ts != []
      && |parts| >= 2 && parts[0] == "(" + CondText(ts[..|ts| - 1]) + ")"
      && ctx.code == old(ctx.code) + [Indentation(ctx.indent) + IfCode(parts, next, ctx.indent)])
    ensures r.Pass? ==> parts[2..] == Concat(steps) && ElseSteps(heads, steps)
    decreases 16 * (|ctx.tokens| + |ts|) + 12
  {
    parts, next, heads, steps := [], [], [], [];
    var cond := ParseCondition(ts);
    if cond.Err? {
      return Fail(cond.failure), parts, next, heads, steps;
    }
    var more, rest;
    r, more, rest, heads, steps := IfBlocks(ctx);
    if r.Fail? {
      return;
    }
    parts, next := [cond.value] + more, rest;
    assert parts[2..] == more[1..];
    ctx.PushCodeLine(IfCode([cond.value] + more, rest, ctx.indent));
    r := Pass;
  }

  /** parseFor's blocks: the loop body (with a nested return) and the code after the
      loop (without one), each compiled one level deeper. */
  method ForBlocks(ctx: Context) returns (r: Outcome, body: seq<string>, next: seq<string>)
    requires ctx.args != ctx.vars
    modifies ctx, ctx.args, ctx.vars
    ensures ctx.code == old(ctx.code) && ctx.defers == old(ctx.defers)
    ensures r.Pass? ==> Advanced(ctx)
    decreases 16 * |ctx.tokens| + 18
  {
    body, next := [], [];
    var c := NewContext(ctx);
    c.indent := ctx.indent + 1;
    r := ParseNested(c, true);
    if r.Fail? {
      return;
    }
    ctx.tokens := c.tokens;
    body := c.code;
    var d := NewContext(ctx);
    d.indent := ctx.indent + 1;
    r := ParseNested(d, false);
    if r.Fail? {
      return;
    }
    ctx.tokens := d.tokens;
    next := d.code;
  }

  /** parseFor: `for key in obj {` walks the object's keys, `for cond {` and `for {`
      loop on a condition; the code after the loop is its continuation. */
  method ParseFor(ctx: Context, ts: seq<Token>) returns (r: Outcome, ghost body: seq<string>, ghost next: seq<string>)
    requires ctx.args != ctx.vars
    modifies ctx, ctx.args, ctx.vars
    ensures ts == [] ==> r == Fail(Crash)
    ensures IsForEach(ts) && ts[0].kind != Identifier ==> r == Fail(ErrorAt(ts[0], ""))
    ensures !IsForEach(ts) && ForCondition(ts).Err? ==> r == Fail(ForCondition(ts).failure)
    ensures r.Fail? ==> ctx.code == old(ctx.code)
    ensures r.Pass? ==> Advanced(ctx) && ctx.defers == old(ctx.defers)
    ensures r.Pass? && IsForEach(ts) ==>
      ctx.code == old(ctx.code) + [Indentation(ctx.indent) + ForEachCode(ForEachObject(ts), ts[0].text, body, next, ctx.indent)]
    ensures r.Pass? && !IsForEach(ts) ==> (
      ForCondition(ts).Ok? &&
      ctx.code == old(ctx.code) + [Indentation(ctx.indent) + ConditionLoopCode(ForCondition(ts).value, body, next, ctx.indent)])
    decreases 16 * (|ctx.tokens| + |ts|) + 12
  {
    body, next := [], [];
    if |ts| >= 3 && ts[1].kind == Keyword && ts[1].text == "in" {
      if ts[0].kind != Identifier {
        return Fail(ErrorAt(ts[0], "")), body, next;
      }
      var key := ts[0].text;
      var obj := JoinTexts(ts[2..|ts| - 1]);
      var b, n;
      r, b, n := ForBlocks(ctx);
      if r.Fail? {
        return;
      }
      body, next := b, n;
      ctx.PushCodeLine(ForEachCode(obj, key, b, n, ctx.indent));
    } else {
      var condition: string;
      if |ts| == 1 && ts[0].kind == Symbol && ts[0].text == "{" {
        condition := "true";
      } else {
        var c := ParseCondition(ts);
        if c.Err? {
          return Fail(c.failure), body, next;
        }
        condition := c.value;
      }
      var b, n;
      r, b, n := ForBlocks(ctx);
      if r.Fail? {
        return;
      }
      body, next := b, n;
      ctx.PushCodeLine(ConditionLoopCode(condition, b, n, ctx.indent));
    }
    return Pass, body, next;
  }
}
