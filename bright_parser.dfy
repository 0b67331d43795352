/** The bright code generator (build/bright.js, syntax part) as an imperative
    parser: a context object whose code, deferred actions, indentation and
    remaining tokens the statement handlers update in place, and whose argument
    and variable lists are shared with the contexts made for nested blocks. */
module BrightParser {
  import opened Tokens
  import opened SyntaxCommon
  import opened BrightRules
  import opened ParseContext

  /** The lines parseExpression emits, at the given depth, for a var statement's
      initialisations. */
  function AssignmentLines(asg: seq<Assignment>, indent: int): (r: seq<string>)
    ensures |r| == |asg|
    decreases |asg|
  {
    if asg == [] then []
    else
      AssignmentLines(asg[..|asg| - 1], indent) + [AssignmentLine(asg[|asg| - 1], indent)]
  }

  /** The line parseExpression pushes for one initialisation. */
  function AssignmentLine(a: Assignment, indent: int): string {
    Indentation(indent) + ExpressionLine(a.name, a.expr)
  }

  /** Line `k` is the `k`-th initialisation, `name = <expression>`, at the given depth. */
  lemma {:induction false} AssignmentLineAt(asg: seq<Assignment>, indent: int, k: nat)
    requires k < |asg|
    ensures AssignmentLines(asg, indent)[k] == AssignmentLine(asg[k], indent)
    decreases |asg|
  {
    var init := asg[..|asg| - 1];
    var last := AssignmentLine(asg[|asg| - 1], indent);
    var p := AssignmentLines(init, indent);
    assert AssignmentLines(asg, indent) == p + [last];
    if k < |init| {
      AssignmentLineAt(init, indent, k);
      assert asg[k] == init[k];
      assert (p + [last])[k] == p[k];
    } else {
      assert (p + [last])[k] == last;
    }
  }

  // ---------------------------------------------------------------------------
  // Statements without nested blocks

  /** parseExpression: one line, `name = <expression>` or the bare expression. */
  method ParseExpression(ctx: Context, name: string, ts: seq<Token>)
    modifies ctx
    ensures ctx.code == old(ctx.code) + [Indentation(ctx.indent) + ExpressionLine(name, ts)]
    ensures Same(ctx)
  {
    var code := SpacedText(ts);
    code := (if name != "" then name + " = " else "") + Trim(code);
    ctx.PushCodeLine(code);
  }

  /** parseArgument: the identifiers of the list are added to the arguments. */
  method ParseArgument(ctx: Context, ts: seq<Token>) returns (r: Outcome)
    modifies ctx.args
    ensures r == OutcomeOf(ArgumentList(ts, false))
    ensures r.Pass? ==> ctx.args.items == old(ctx.args.items) + ArgumentList(ts, false).value
  {
    ghost var start := ctx.args.items;
    var isComma := false;
    var i := 0;
    assert ts[0..] == ts && ctx.args.items[|start|..] == [];
    PrefixedNothing(ArgumentList(ts, false));
    while i < |ts|
      invariant 0 <= i <= |ts|
      invariant start <= ctx.args.items
      invariant ArgumentList(ts, false) == Prefixed(ctx.args.items[|start|..], ArgumentList(ts[i..], isComma))
    {
      var t := ts[i];
      assert ts[i..][0] == t && ts[i..][1..] == ts[i + 1..];
      ghost var pre := ctx.args.items[|start|..];
      if t.kind == Identifier {
        isComma := false;
        ctx.args.Push(t.text);
        assert ctx.args.items[|start|..] == pre + [t.text];
        match ArgumentList(ts[i + 1..], false)
        case Ok(ns) =>
          assert pre + ([t.text] + ns) == pre + [t.text] + ns;
        case Err(_) =>
      } else if IsSymbol(t, ",") && !isComma {
        isComma := true;
      } else {
        return Fail(ErrorAt(t, ""));
      }
      i := i + 1;
    }
    assert ts[i..] == [];
    return Pass;
  }

  /** The declarations and initialisations so far followed by those still to come. */
  function Merge(done: VarOutput, r: Result<VarOutput>): Result<VarOutput> {
    match r
    case Ok(o) => Ok(VarOutput(done.vars + o.vars, done.lines + o.lines))
    case Err(f) => Err(f)
  }

  lemma MergeNothing(r: Result<VarOutput>)
    ensures Merge(VarOutput([], []), r) == r
  {
    match r
    case Ok(o) =>
      assert [] + o.vars == o.vars && [] + o.lines == o.lines;
    case Err(_) =>
  }

  lemma VarFromStep(ts: seq<Token>, i: nat, st: VarState, m: VarMove, done: VarOutput)
    requires i < |ts| && VarStep(ts[i], st) == Ok(m)
    ensures Merge(done, VarFrom(ts[i..], st))
         == Merge(VarOutput(done.vars + m.declared, done.lines + m.lines), VarFrom(ts[i + 1..], m.next))
  {
    assert ts[i..][0] == ts[i] && ts[i..][1..] == ts[i + 1..];
    match VarFrom(ts[i + 1..], m.next)
    case Ok(o) =>
      assert done.vars + (m.declared + o.vars) == done.vars + m.declared + o.vars;
      assert done.lines + (m.lines + o.lines) == done.lines + m.lines + o.lines;
    case Err(_) =>
  }

  /** The body of parseVar's loop for one token: it declares a name, closes an
      initialisation (emitting its line) or only moves the scan state. */
  method VarToken(ctx: Context, t: Token, st: VarState) returns (r: Result<VarState>)
    requires ctx.vars != ctx.args
    modifies ctx, ctx.vars
    ensures VarStep(t, st).Err? ==> r == Err(VarStep(t, st).failure)
    ensures VarStep(t, st).Ok? ==> r == Ok(VarStep(t, st).value.next)
    ensures VarStep(t, st).Ok? ==> ctx.vars.items == old(ctx.vars.items) + VarStep(t, st).value.declared
    ensures VarStep(t, st).Ok? ==> ctx.code == old(ctx.code) + AssignmentLines(VarStep(t, st).value.lines, ctx.indent)
    ensures ctx.args == old(ctx.args) && ctx.vars == old(ctx.vars)
    ensures ctx.tokens == old(ctx.tokens) && ctx.indent == old(ctx.indent) && ctx.defers == old(ctx.defers)
  {
    var isInit, currName, brackets, init := st.isInit, st.currName, st.brackets, st.init;
    if isInit {
      if t.kind == Symbol && (t.text == "(" || t.text == "[") {
        init := init + [t];
        brackets := brackets + [t];
      } else if t.kind == Symbol && (t.text == ")" || t.text == "]") {
        if brackets == [] {
          return Err(Crash);
        }
        var t2 := brackets[|brackets| - 1];
        brackets := brackets[..|brackets| - 1];
        if t2.text != Opener(t.text) {
          return Err(ErrorAt(t, ""));
        }
        init := init + [t];
      } else if t.kind == Symbol && t.text == "," && brackets == [] {
        var line := init + [NewToken(Symbol, t.line, t.column, ";")];
        ParseExpression(ctx, currName, line);
        assert [Assignment(currName, line)][..0] == [];
        init := line;
        isInit := false;
      } else {
        init := init + [t];
      }
    } else if t.kind == Identifier {
      ctx.vars.Push(t.text);
      currName := t.text;
      brackets := [];
      init := [];
    } else if currName != "" && t.kind == Symbol {
      if t.text == "," {
        isInit := false;
      } else if t.text == "=" {
        isInit := true;
      } else {
        return Err(ErrorAt(t, ""));
      }
    } else {
      return Err(ErrorAt(t, ""));
    }
    return Ok(VarState(isInit, currName, brackets, init));
  }

  lemma {:induction false} AssignmentLinesAppend(a: seq<Assignment>, b: seq<Assignment>, indent: int)
    ensures AssignmentLines(a + b, indent) == AssignmentLines(a, indent) + AssignmentLines(b, indent)
    decreases |b|
  {
    if b == [] {
      assert a + b == a;
    } else {
      var c := b[..|b| - 1];
      assert (a + b)[..|a + b| - 1] == a + c;
      AssignmentLinesAppend(a, c, indent);
    }
  }

  /** What one turn of parseVar's loop keeps: the owed outcome and the
      collected names and lines, with the turn's own output moved into `done`. */
  lemma VarTurn(all: seq<Token>, i: nat, st: VarState, m: VarMove, done: VarOutput,
                startVars: seq<string>, startCode: seq<string>,
                vars: seq<string>, code: seq<string>, indent: int)
    requires i < |all| && VarStep(all[i], st) == Ok(m)
    requires vars == startVars + done.vars + m.declared
    requires code == startCode + AssignmentLines(done.lines, indent) + AssignmentLines(m.lines, indent)
    ensures Merge(done, VarFrom(all[i..], st))
         == Merge(VarOutput(done.vars + m.declared, done.lines + m.lines), VarFrom(all[i + 1..], m.next))
    ensures vars == startVars + (done.vars + m.declared)
    ensures code == startCode + AssignmentLines(done.lines + m.lines, indent)
  {
    VarFromStep(all, i, st, m, done);
    AssignmentLinesAppend(done.lines, m.lines, indent);
    SeqAssociative(startVars, done.vars, m.declared);
    SeqAssociative(startCode, AssignmentLines(done.lines, indent), AssignmentLines(m.lines, indent));
  }

  /** One turn of parseVar's loop: the token at `i` is handled and the
      outcome still owed by the rest of the statement is unchanged. */
  method VarAdvance(ctx: Context, all: seq<Token>, i: nat, st: VarState, ghost done: VarOutput,
                    ghost startVars: seq<string>, ghost startCode: seq<string>)
      returns (next: Result<VarState>, ghost done2: VarOutput)
    requires i < |all| && ctx.vars != ctx.args
    requires ctx.vars.items == startVars + done.vars
    requires ctx.code == startCode + AssignmentLines(done.lines, ctx.indent)
    modifies ctx, ctx.vars
    ensures next.Err? ==> Merge(done, VarFrom(all[i..], st)) == Err(next.failure)
    ensures next.Ok? ==> Merge(done, VarFrom(all[i..], st)) == Merge(done2, VarFrom(all[i + 1..], next.value))
    ensures next.Ok? ==> ctx.vars.items == startVars + done2.vars
    ensures next.Ok? ==> ctx.code == startCode + AssignmentLines(done2.lines, ctx.indent)
    ensures ctx.args == old(ctx.args) && ctx.vars == old(ctx.vars)
    ensures ctx.tokens == old(ctx.tokens) && ctx.indent == old(ctx.indent) && ctx.defers == old(ctx.defers)
  {
    ghost var m := VarStep(all[i], st);
    next := VarToken(ctx, all[i], st);
    done2 := done;
    if next.Err? {
      assert VarFrom(all[i..], st) == Err(next.failure) by {
        assert all[i..][0] == all[i];
      }
      return;
    }
    VarTurn(all, i, st, m.value, done, startVars, startCode, ctx.vars.items, ctx.code, ctx.indent);
    done2 := VarOutput(done.vars + m.value.declared, done.lines + m.value.lines);
  }

  /** parseVar: the declared names are added to the variables, and each
      initialisation becomes a line. */
  method ParseVar(ctx: Context, ts: seq<Token>) returns (r: Outcome)
    requires ctx.vars != ctx.args
    modifies ctx, ctx.vars
    ensures r == OutcomeOf(VarStatement(ts))
    ensures r.Pass? ==> ctx.vars.items == old(ctx.vars.items) + VarStatement(ts).value.vars
    ensures r.Pass? ==> ctx.code == old(ctx.code) + AssignmentLines(VarStatement(ts).value.lines, old(ctx.indent))
    ensures ctx.args == old(ctx.args) && ctx.vars == old(ctx.vars)
    ensures ctx.tokens == old(ctx.tokens) && ctx.indent == old(ctx.indent) && ctx.defers == old(ctx.defers)
  {
    if ts == [] {
      return Fail(Crash);
    }
    var all := ts + [VarEnd(ts[|ts| - 1])];
    ghost var startVars := ctx.vars.items;
    ghost var startCode := ctx.code;
    ghost var done := VarOutput([], []);
    var st := VarStart;
    var i := 0;
    assert all[0..] == all;
    MergeNothing(VarFrom(all, VarStart));
    while i < |all|
      invariant 0 <= i <= |all|
      invariant ctx.vars == old(ctx.vars) && ctx.args == old(ctx.args)
      invariant ctx.tokens == old(ctx.tokens) && ctx.indent == old(ctx.indent) && ctx.defers == old(ctx.defers)
      invariant ctx.vars.items == startVars + done.vars
      invariant ctx.code == startCode + AssignmentLines(done.lines, ctx.indent)
      invariant VarStatement(ts) == Merge(done, VarFrom(all[i..], st))
    {
      var next;
      next, done := VarAdvance(ctx, all, i, st, done, startVars, startCode);
      if next.Err? {
        return Fail(next.failure);
      }
      st := next.value;
      i := i + 1;
    }
    assert all[i..] == [];
    assert VarStatement(ts) == Ok(done) by {
      assert done.vars + [] == done.vars && done.lines + [] == done.lines;
    }
    return Pass;
  }

  /** parseReturn: the callback (the statement's own, or the top-level one) is
      called with `null` and the returned values. */
  method ParseReturn(ctx: Context, ts: seq<Token>, nested: bool) returns (r: Outcome)
    modifies ctx
    ensures ts == [] ==> r == Pass && ctx.code == old(ctx.code) + [Indentation(ctx.indent) + ReturnLine([], nested)]
    ensures ts != [] ==> r == OutcomeOf(MultiValue(ts))
    ensures ts != [] && r.Pass? ==> ctx.code == old(ctx.code) + [Indentation(ctx.indent) + ReturnLine(MultiValue(ts).value, nested)]
    ensures r.Fail? ==> ctx.code == old(ctx.code)
    ensures Same(ctx)
  {
    var values: seq<string> := [];
    if ts != [] {
      var res := ParseMultiValue(ts);
      if res.Err? {
        return Fail(res.failure);
      }
      values := res.value;
    }
    ctx.PushCodeLine("return $$_callback" + (if nested then "" else "_global") + "(" + Join(["null"] + values, ", ") + ");");
    return Pass;
  }

  /** parseThrow: the error (a new Error without an expression) is passed to the
      top-level callback. */
  method ParseThrow(ctx: Context, ts: seq<Token>)
    modifies ctx
    ensures ts == [] ==> ctx.code == old(ctx.code) + [Indentation(ctx.indent) + "return $$_callback_global(new Error());"]
    ensures ts != [] ==> ctx.code == old(ctx.code) + [Indentation(ctx.indent) + ExpressionLine("var $$_err", ts),
                                                       Indentation(ctx.indent) + "return $$_callback_global($$_err);"]
    ensures Same(ctx)
  {
    if ts == [] {
      ctx.PushCodeLine("return $$_callback_global(new Error());");
    } else {
      ParseExpression(ctx, "var $$_err", ts);
      ctx.PushCodeLine("return $$_callback_global($$_err);");
    }
  }

  /** One line's effect on parseBraceBody's brace count. */
  method CountBraces(l: seq<Token>, isIf: bool, brace0: int, contains0: bool) returns (brace: int, contains: bool)
    ensures (brace, contains) == BraceStep(l, isIf, brace0, contains0)
  {
    brace, contains := brace0, contains0;
    if l != [] {
      var firstClose := IsSymbol(l[0], "}");
      var lastOpen := IsSymbol(l[|l| - 1], "{");
      if isIf {
        if firstClose {
          brace := brace - 1;
        } else if lastOpen {
          brace := brace + 1;
        }
      } else {
        if firstClose {
          brace := brace - 1;
        }
        if lastOpen {
          brace := brace + 1;
        }
        if !contains {
          contains := firstClose && lastOpen;
        }
      }
    }
  }

  /** One turn of parseBraceBody's loop, on the first line of `ts`. */
  lemma BraceBodyTurn(ts: seq<Token>, isIf: bool, brace: int, body: seq<Token>, contains: bool)
    requires ts != []
    ensures var n := LineLength(ts);
            var l := NonBlank(ts[..n]);
            var step := BraceStep(l, isIf, brace, contains);
            BraceBodyFrom(ts, isIf, brace, body, contains)
            == if step.0 < 0 then BodyEnd(body, step.1, (if |l| > 1 then l[1..] else []) + ts[n..])
               else BraceBodyFrom(ts[n..], isIf, step.0, body + ts[..n], step.1)
  {
  }

  /** parseBraceBody: the tokens up to the line that closes the block, and what
      follows it. */
  method ParseBraceBody(ts: seq<Token>, isIf: bool) returns (r: BodySplit)
    ensures r == BraceBody(ts, isIf)
  {
    var rest := ts;
    var body: seq<Token> := [];
    var brace := 0;
    var contains := false;
    var closed := false;
    while rest != [] && !closed
      invariant !closed ==> brace >= 0 && BraceBodyFrom(rest, isIf, brace, body, contains) == BraceBody(ts, isIf)
      invariant closed ==> BodyEnd(body, contains, rest) == BraceBody(ts, isIf)
      decreases |rest|, !closed
    {
      var split := ReadLine(rest);
      var line := split.value.line;
      var l := RemoveBlankTokens(line);
      var next := split.value.next;
      BraceBodyTurn(rest, isIf, brace, body, contains);
      brace, contains := CountBraces(l, isIf, brace, contains);
      if brace < 0 {
        if |l| > 1 {
          next := l[1..] + next;
        } else {
          assert [] + next == next;
        }
        rest := next;
        closed := true;
      } else {
        body := body + line;
        rest := next;
      }
    }
    if contains && body != [] && IsSymbol(body[|body| - 1], "}") {
      body := body[..|body| - 1];
    }
    return BodySplit(body, rest);
  }

  /** parseJavascript: the block's lines are copied, names spaced, and parsing goes
      on after the block. */
  method ParseJavascript(ctx: Context, ts: seq<Token>) returns (r: Outcome)
    modifies ctx
    ensures ts == [] ==> r == Fail(Crash)
    ensures ts != [] && !(|ts| == 1 && IsSymbol(ts[0], "{")) ==> r == Fail(ErrorAt(ts[0], ""))
    ensures r.Fail? ==> ctx.code == old(ctx.code) && ctx.tokens == old(ctx.tokens)
    ensures r.Pass? ==> |ts| == 1 && IsSymbol(ts[0], "{")
    ensures r.Pass? ==> var split := BraceBody(old(ctx.tokens), false);
      ctx.code == old(ctx.code) + Indented(JavascriptLines(split.body), old(ctx.indent))
      && ctx.tokens == split.next
    ensures ctx.args == old(ctx.args) && ctx.vars == old(ctx.vars) && ctx.defers == old(ctx.defers)
    ensures ctx.indent == old(ctx.indent)
  {
    if ts == [] {
      return Fail(Crash);
    }
    if !(|ts| == 1 && IsSymbol(ts[0], "{")) {
      return Fail(ErrorAt(ts[0], ""));
    }
    var split := ParseBraceBody(ctx.tokens, false);
    var rest := split.body;
    ghost var start := ctx.code;
    assert Indented(JavascriptLines(split.body), ctx.indent) == [] + Indented(JavascriptLines(rest), ctx.indent);
    while rest != []
      invariant ctx.args == old(ctx.args) && ctx.vars == old(ctx.vars) && ctx.defers == old(ctx.defers)
      invariant ctx.indent == old(ctx.indent) && ctx.tokens == old(ctx.tokens)
      invariant start + Indented(JavascriptLines(split.body), ctx.indent) == ctx.code + Indented(JavascriptLines(rest), ctx.indent)
      decreases |rest|
    {
      var line := ReadLine(rest);
      var code := SpacedText(line.value.line);
      assert JavascriptLines(rest) == [code] + JavascriptLines(line.value.next);
      IndentedCons(code, JavascriptLines(line.value.next), ctx.indent);
      SeqAssociative(ctx.code, [Indentation(ctx.indent) + code], Indented(JavascriptLines(line.value.next), ctx.indent));
      ctx.PushCodeLine(code);
      rest := line.value.next;
    }
    ctx.tokens := split.next;
    return Pass;
  }

  // ---------------------------------------------------------------------------
  // Statements with nested blocks, and syntax.parse itself.  The handlers and
  // syntax.parse call one another; termination is by the remaining tokens, with the
  // statement's own tokens counted for a handler (see the decreases clauses).

  /** syntax.parse on a context: the remaining tokens are compiled line by line,
      blank lines skipped, until they run out or a statement fails. */
  method Parse(ctx: Context) returns (r: Outcome, ghost lines: seq<seq<Token>>, ghost states: seq<seq<string>>)
    requires ctx.args != ctx.vars
    modifies ctx, ctx.args, ctx.vars
    ensures r.Pass? ==> Advanced(ctx) && ctx.tokens == []
    ensures r.Pass? ==> StatementSteps(lines, states, ctx.indent) && states[0] == old(ctx.code) && states[|lines|] == ctx.code
    decreases 16 * |ctx.tokens|
  {
    lines, states := [], [ctx.code];
    while ctx.tokens != []
      invariant Advanced(ctx)
      invariant StatementSteps(lines, states, ctx.indent) && states[0] == old(ctx.code) && states[|lines|] == ctx.code
      decreases |ctx.tokens|
    {
      var split := ReadLine(ctx.tokens);
      var line := RemoveBlankTokens(split.value.line);
      ctx.tokens := split.value.next;
      if line != [] {
        r := Statement(ctx, line);
        if r.Fail? {
          return;
        }
        StatementStepsSnoc(lines, states, line, ctx.code, ctx.indent);
        lines, states := lines + [line], states + [ctx.code];
      }
    }
    return Pass, lines, states;
  }

  /** What one statement does to the code: it appends, between its line markers
      when it has them, and appends exactly its expression line between them when it
      does not start with a keyword. */
  predicate StatementStep(line: seq<Token>, before: seq<string>, after: seq<string>, indent: int) {
    line != [] && before <= after
    && (Marked(line[0]) ==>
          |after| >= |before| + 2 && after[|before|] == Indentation(indent) + LineMarker(line[0], "START")
          && after[|after| - 1] == Indentation(indent) + LineMarker(line[0], "END"))
    && (line[0].kind != Keyword ==>
          after == before + [Indentation(indent) + LineMarker(line[0], "START"),
                             Indentation(indent) + ExpressionLine("", line),
                             Indentation(indent) + LineMarker(line[0], "END")])
  }

  /** The statements of a program, in order: the code goes through one state per
      statement, each obtained from the one before by that statement. */
  predicate StatementSteps(lines: seq<seq<Token>>, states: seq<seq<string>>, indent: int)
    decreases |lines|
  {
    |states| == |lines| + 1
    && (lines != [] ==>
          StatementSteps(lines[..|lines| - 1], states[..|lines|], indent)
          && StatementStep(lines[|lines| - 1], states[|lines| - 1], states[|lines|], indent))
  }

  lemma StatementStepsSnoc(lines: seq<seq<Token>>, states: seq<seq<string>>, line: seq<Token>, after: seq<string>, indent: int)
    requires StatementSteps(lines, states, indent) && StatementStep(line, states[|lines|], after, indent)
    ensures StatementSteps(lines + [line], states + [after], indent)
  {
    assert (lines + [line])[..|lines|] == lines;
    assert (states + [after])[..|lines| + 1] == states;
  }

  /** Statement `i` of the program takes the code from state `i` to state `i + 1`. */
  lemma {:induction false} StatementStepAt(lines: seq<seq<Token>>, states: seq<seq<string>>, indent: int, i: int)
    requires StatementSteps(lines, states, indent) && 0 <= i < |lines|
    ensures StatementStep(lines[i], states[i], states[i + 1], indent)
    decreases |lines|
  {
    if i < |lines| - 1 {
      StatementStepAt(lines[..|lines| - 1], states[..|lines|], indent, i);
    }
  }

  /** One statement of syntax.parse: refused before any code when its keyword is
      unknown or lacks an operand, and otherwise bracketed by line markers unless it
      is an argument, var or defer statement. */
  method Statement(ctx: Context, line: seq<Token>) returns (r: Outcome)
    requires line != [] && ctx.args != ctx.vars
    modifies ctx, ctx.args, ctx.vars
    ensures r.Pass? ==> Advanced(ctx)
    ensures StatementRefusal(line).Some? ==> r == Fail(StatementRefusal(line).value) && ctx.code == old(ctx.code)
    ensures r.Pass? ==> StatementStep(line, old(ctx.code), ctx.code, ctx.indent)
    ensures line[0].kind != Keyword ==> r == Pass
    decreases 16 * (|ctx.tokens| + |line|) - 1
  {
    var refusal := StatementRefusal(line);
    if refusal.Some? {
      return Fail(refusal.value);
    }
    var t := line[0];
    var marked := Marked(t);
    if !marked {
      r := Handle(ctx, line);
      return;
    }
    ghost var start := ctx.code;
    ctx.PushCodeLine(LineMarker(t, "START"));
    ghost var mid := ctx.code;
    r := Handle(ctx, line);
    if r.Pass? {
      ghost var handled := ctx.code;
      ctx.PushCodeLine(LineMarker(t, "END"));
      MarkedLines(start, mid, handled, ctx.code, Indentation(ctx.indent) + LineMarker(t, "START"), Indentation(ctx.indent) + LineMarker(t, "END"));
      if t.kind != Keyword {
        ExpressionLines(start, Indentation(ctx.indent) + LineMarker(t, "START"), Indentation(ctx.indent) + ExpressionLine("", line), Indentation(ctx.indent) + LineMarker(t, "END"));
      }
    }
  }

  /** The code of a marked statement: its START line, what the handler adds, and
      its END line. */
  lemma MarkedLines(start: seq<string>, mid: seq<string>, handled: seq<string>, code: seq<string>, first: string, last: string)
    requires mid == start + [first] && mid <= handled && code == handled + [last]
    ensures |code| >= |start| + 2 && code[|start|] == first && code[|code| - 1] == last
  {
    assert code[|start|] == handled[|start|] == mid[|start|];
  }

  lemma ExpressionLines(start: seq<string>, first: string, middle: string, last: string)
    ensures start + [first] + [middle] + [last] == start + [first, middle, last]
  {
  }

  /** The switch of syntax.parse: the statement is handed to its handler, or is an
      expression when it does not start with a keyword. */
  method Handle(ctx: Context, line: seq<Token>) returns (r: Outcome)
    requires line != [] && StatementRefusal(line).None? && ctx.args != ctx.vars
    modifies ctx, ctx.args, ctx.vars
    ensures r.Pass? ==> Advanced(ctx)
    ensures line[0].kind != Keyword ==> r == Pass && ctx.code == old(ctx.code) + [Indentation(ctx.indent) + ExpressionLine("", line)]
    ensures IsKeywordToken(line[0], "break") ==> r == Pass && ctx.code == old(ctx.code) + [Indentation(ctx.indent) + "return $$_break(null);"]
    ensures IsKeywordToken(line[0], "continue") ==> r == Pass && ctx.code == old(ctx.code) + [Indentation(ctx.indent) + "return $$_continue(null);"]
    decreases 16 * (|ctx.tokens| + |line|) - 2
  {
    var t := line[0];
    var rest := line[1..];
    if t.kind != Keyword {
      ParseExpression(ctx, "", line);
      return Pass;
    }
    if t.text == "argument" {
      r := ParseArgument(ctx, rest);
    } else if t.text == "var" {
      r := ParseVar(ctx, rest);
    } else if t.text == "return" {
      r := ParseReturn(ctx, rest, t.nested);
    } else if t.text == "break" {
      ctx.PushCodeLine("return $$_break(null);");
      r := Pass;
    } else if t.text == "continue" {
      ctx.PushCodeLine("return $$_continue(null);");
      r := Pass;
    } else if t.text == "throw" {
      ParseThrow(ctx, rest);
      r := Pass;
    } else {
      r := HandleBlock(ctx, t, rest);
    }
  }

  /** The rest of parse's dispatch: the statements that compile a nested block or
      the rest of the input into a callback. */
  method HandleBlock(ctx: Context, t: Token, rest: seq<Token>) returns (r: Outcome)
    requires ctx.args != ctx.vars
    modifies ctx, ctx.args, ctx.vars
    ensures r.Pass? ==> Advanced(ctx)
    decreases 16 * (|ctx.tokens| + |rest|) + 13
  {
    if t.text == "let" {
      r := ParseLet(ctx, rest);
    } else if t.text == "await" {
      r := ParseAwait(ctx, [], rest);
    } else if t.text == "sleep" {
      r := ParseSleep(ctx, rest);
    } else if t.text == "function" {
      ghost var vars, defers, lines;
      r, vars, defers, lines := ParseFunction(ctx, "", rest);
    } else if t.text == "defer" {
      ghost var block;
      r, block := ParseDefer(ctx, rest);
    } else if t.text == "if" {
      ghost var parts, next, heads, steps;
      r, parts, next, heads, steps := ParseIf(ctx, rest);
    } else if t.text == "for" {
      ghost var body, next;
      r, body, next := ParseFor(ctx, rest);
    } else {
      r := ParseJavascript(ctx, rest);
    }
  }


  /** parseNested: the block's tokens (with a nested return added when asked) are
      parsed into this context, and parsing goes on after the block. */
  method ParseNested(ctx: Context, isReturn: bool, isIf: bool) returns (r: Outcome)
    requires ctx.args != ctx.vars
    modifies ctx, ctx.args, ctx.vars
    ensures r.Pass? ==> Advanced(ctx) && ctx.tokens == BraceBody(old(ctx.tokens), isIf).next
    decreases 16 * |ctx.tokens| + 17
  {
    var split := ParseBraceBody(ctx.tokens, isIf);
    var body := split.body;
    if isReturn {
      body := AddReturn(body, true);
    }
    ctx.tokens := body;
    ghost var lines, states;
    r, lines, states := Parse(ctx);
    if r.Fail? {
      return;
    }
    ctx.tokens := split.next;
  }

  /** parseIf's parseBody: a branch compiled one level deeper into a callback, the
      closing brace at the statement's own depth. */
  method IfBody(ctx: Context) returns (r: Outcome, code: string, ghost lines: seq<string>)
    requires ctx.args != ctx.vars
    modifies ctx, ctx.args, ctx.vars
    ensures ctx.code == old(ctx.code) && ctx.defers == old(ctx.defers)
    ensures r.Pass? ==> Advanced(ctx)
    ensures r.Pass? ==> ctx.tokens == BraceBody(old(ctx.tokens), true).next && code == IfBranch(lines, ctx.indent)
    decreases 16 * |ctx.tokens| + 18
  {
    var c := NewContext(ctx);
    c.indent := ctx.indent + 1;
    r := ParseNested(c, true, true);
    lines := c.code;
    if r.Fail? {
      return r, "", lines;
    }
    ctx.tokens := c.tokens;
    code := "function ($$_callback) {\n" + Join(c.code, "\n") + "\n" + Indentation(ctx.indent) + "}";
  }

  /** What parseLet leaves for each plan, from the code and tokens before it: an
      expression pushes its one line; an await opens the callback that binds the
      targets in order (or refuses the call); a function pushes its three lines and
      resumes after the body (or refuses the header). */
  ghost predicate LetDone(plan: LetPlan, r: Outcome, before: seq<string>, after: seq<string>,
                          tokens0: seq<Token>, tokens: seq<Token>, indent: int) {
    match plan
    case LetExpression(name, expr) =>
      r == Pass && after == before + [Indentation(indent) + ExpressionLine(name, expr)]
    case LetAwait(names, call) =>
      (AwaitCall(call).Err? ==> r == Fail(AwaitCall(call).failure) && after == before)
      && (r.Pass? ==> AwaitOpened(names, call, before, after, indent) && tokens == [])
    case LetFunction(name, header) =>
      (FunctionParams(header).Err? ==> r == Fail(FunctionParams(header).failure) && after == before)
      && (r.Pass? ==> FunctionPushed(name, header, before, after, indent) && tokens == BraceBody(tokens0, false).next)
  }

  /** parseLet: the decision of LetStatement, then await, function or an
      assignment. */
  method ParseLet(ctx: Context, ts: seq<Token>) returns (r: Outcome)
    requires ctx.args != ctx.vars
    modifies ctx, ctx.args, ctx.vars
    ensures r.Pass? ==> Advanced(ctx)
    ensures ts == [] ==> r == Fail(Crash)
    ensures ts != [] && LetStatement(ts).Err? ==> r == Fail(LetStatement(ts).failure) && ctx.code == old(ctx.code)
    ensures ts != [] && LetStatement(ts).Ok? ==>
      LetDone(LetStatement(ts).value, r, old(ctx.code), ctx.code, old(ctx.tokens), ctx.tokens, ctx.indent)
    decreases 16 * (|ctx.tokens| + |ts|) + 12
  {
    if ts == [] {
      return Fail(Crash);
    }
    var plan := LetStatement(ts);
    if plan.Err? {
      return Fail(plan.failure);
    }
    LetOperandShorter(ts);
    r := RunLet(ctx, plan.value, |ts|);
  }

  /** parseLet once the plan is known: an assignment of the expression, the await
      or the function. */
  method RunLet(ctx: Context, let: LetPlan, ghost bound: nat) returns (r: Outcome)
    requires ctx.args != ctx.vars
    requires let.LetAwait? ==> |let.call| < bound
    requires let.LetFunction? ==> |let.header| < bound
    modifies ctx, ctx.args, ctx.vars
    ensures r.Pass? ==> Advanced(ctx)
    ensures LetDone(let, r, old(ctx.code), ctx.code, old(ctx.tokens), ctx.tokens, ctx.indent)
    decreases 16 * (|ctx.tokens| + bound) + 11
  {
    if let.LetExpression? {
      ParseExpression(ctx, let.name, let.expr);
      r := Pass;
    } else if let.LetAwait? {
      r := ParseAwait(ctx, let.names, let.call);
    } else {
      ghost var vars, defers, lines;
      r, vars, defers, lines := ParseFunction(ctx, let.name, let.header);
      if r.Pass? {
        assert FunctionPushed(let.name, let.header, old(ctx.code), ctx.code, ctx.indent);
      }
    }
  }

  /** The call text of parseAwait, by its `call += t.text` loops. */
  method AwaitCallText(ts: seq<Token>) returns (r: Result<string>)
    ensures r == AwaitCall(ts)
  {
    if ts == [] {
      return Err(Crash);
    }
    if |ts| == 1 && ts[0].kind == Number {
      return Err(ErrorAt(ts[0], ""));
    }
    if ts[0].kind != Identifier {
      return Err(ErrorAt(ts[0], ""));
    }
    var call: string;
    if IsSymbol(ts[|ts| - 1], ")") {
      call := JoinTexts(ts[..|ts| - 1]);
      if !(|ts| >= 2 && IsSymbol(ts[|ts| - 2], "(")) {
        call := call + ", ";
      }
    } else {
      call := JoinTexts(ts);
      call := call + "(";
    }
    assert call == AwaitCall(ts).value;
    return Ok(call);
  }

  /** The code a passing parseAwait leaves after `before`: the call's header with
      one callback parameter per target, the i-th target bound from `$$_arg_i`,
      then the rest of the statements, closed by the callback's end. */
  ghost predicate AwaitOpened(names: seq<string>, ts: seq<Token>, before: seq<string>, after: seq<string>, indent: int) {
    AwaitCall(ts).Ok?
    && before + [Indentation(indent) + AwaitHeader(AwaitCall(ts).value, |names|)]
       + Indented(AwaitBindings(names), indent + 1) < after
    && after[|after| - 1] == Indentation(indent) + CallbackClose
  }

  /** parseAwait: the call gets a callback with one parameter per target; its body
      copies the parameters into the targets and then holds the rest of the
      statements, one level deeper. */
  method ParseAwait(ctx: Context, names: seq<string>, ts: seq<Token>) returns (r: Outcome)
    requires ctx.args != ctx.vars
    modifies ctx, ctx.args, ctx.vars
    ensures r.Pass? ==> Advanced(ctx) && ctx.tokens == []
    ensures AwaitCall(ts).Err? ==> r == Fail(AwaitCall(ts).failure) && ctx.code == old(ctx.code)
    ensures r.Pass? ==> AwaitOpened(names, ts, old(ctx.code), ctx.code, ctx.indent)
    decreases 16 * (|ctx.tokens| + |ts|) + 12
  {
    var call := AwaitCallText(ts);
    if call.Err? {
      return Fail(call.failure);
    }
    var code := MultiArgumentsCode(names);
    assert code.args == ArgSlots(|names|);
    assert code.init == AwaitBindings(names);
    ghost var openCode := ctx.code + [Indentation(ctx.indent) + AwaitHeader(AwaitCall(ts).value, |names|)]
                          + Indented(AwaitBindings(names), ctx.indent + 1);
    ctx.PushCodeLine(call.value + "function (" + Join(code.args, ", ") + ") {");
    ctx.indent := ctx.indent + 1;
    PushLines(ctx, code.init);
    assert ctx.code == openCode;
    ghost var lines, states;
    r, lines, states := Parse(ctx);
    if r.Fail? {
      return;
    }
    ghost var body := ctx.code;
    assert openCode <= body;
    ctx.indent := ctx.indent - 1;
    PrefixSnoc(openCode, body, Indentation(ctx.indent) + CallbackClose);
    ctx.PushCodeLine(CallbackClose);
  }

  /** parseSleep: the delay is computed into `$$_sleep_ms`, and the rest of the
      statements go into the timer's callback, one level deeper. */
  method ParseSleep(ctx: Context, ts: seq<Token>) returns (r: Outcome)
    requires ctx.args != ctx.vars
    modifies ctx, ctx.args, ctx.vars
    ensures ts == [] ==> r == Fail(Crash)
    ensures r.Pass? ==> (
      Advanced(ctx) && ctx.tokens == [] && ts != []
      && old(ctx.code) + [Indentation(ctx.indent) + ExpressionLine("var $$_sleep_ms", ts + [SleepEnd(ts[|ts| - 1])]),
                          Indentation(ctx.indent) + SleepLine] < ctx.code
      && ctx.code[|ctx.code| - 1] == Indentation(ctx.indent) + CallbackClose)
    decreases 16 * (|ctx.tokens| + |ts|) + 12
  {
    if ts == [] {
      return Fail(Crash);
    }
    ghost var openCode := ctx.code + [Indentation(ctx.indent) + ExpressionLine("var $$_sleep_ms", ts + [SleepEnd(ts[|ts| - 1])]),
                                    Indentation(ctx.indent) + SleepLine];
    ParseExpression(ctx, "var $$_sleep_ms", ts + [SleepEnd(ts[|ts| - 1])]);
    ctx.PushCodeLine(SleepLine);
    assert ctx.code == openCode;
    ctx.indent := ctx.indent + 1;
    ghost var lines, states;
    r, lines, states := Parse(ctx);
    if r.Fail? {
      return;
    }
    ghost var body := ctx.code;
    assert openCode <= body;
    ctx.indent := ctx.indent - 1;
    PrefixSnoc(openCode, body, Indentation(ctx.indent) + CallbackClose);
    ctx.PushCodeLine(CallbackClose);
  }

  /** parseDefer: a one-line defer queues its call, a defer block queues the block
      compiled at depth 3 in a context of its own (whose own deferred actions are
      dropped). */
  method ParseDefer(ctx: Context, ts: seq<Token>) returns (r: Outcome, ghost block: seq<string>)
    requires ctx.args != ctx.vars
    modifies ctx, ctx.args, ctx.vars
    ensures ts == [] ==> r == Fail(Crash)
    ensures ts != [] && DeferLine(ts).Err? ==> r == Fail(DeferLine(ts).failure)
    ensures r.Fail? ==> ctx.code == old(ctx.code)
    ensures r.Pass? ==> Advanced(ctx) && ctx.code == old(ctx.code) && ts != [] && DeferLine(ts).Ok?
    ensures ts != [] && DeferLine(ts).Ok? && DeferLine(ts).value.Some? ==> (
      r == Pass && ctx.defers == old(ctx.defers) + [DeferLine(ts).value.value] && ctx.tokens == old(ctx.tokens))
    ensures r.Pass? && DeferLine(ts).value.None? ==> (
      ctx.defers == old(ctx.defers) + [DeferBlock(block)] && ctx.tokens == BraceBody(old(ctx.tokens), false).next)
    decreases 16 * (|ctx.tokens| + |ts|) + 12
  {
    block := [];
    if ts == [] {
      return Fail(Crash), block;
    }
    var line := DeferLine(ts);
    if line.Err? {
      return Fail(line.failure), block;
    }
    if line.value.Some? {
      ctx.defers := ctx.defers + [line.value.value];
      return Pass, block;
    }
    var c := NewContext(ctx);
    c.indent := 3;
    r := ParseNested(c, true, false);
    if r.Fail? {
      return;
    }
    block := c.code;
    ctx.defers := ctx.defers + [DeferBlock(c.code)];
    ctx.tokens := c.tokens;
  }

  /** The `elseif` and `else` lines that follow an `if` block: each adds its condition
      and branch (or just the branch), and the first other line is given back to the
      token stream. */
  method ElseChain(ctx: Context) returns (r: Outcome, more: seq<string>, ghost heads: seq<seq<Token>>, ghost steps: seq<seq<string>>)
    requires ctx.args != ctx.vars
    modifies ctx, ctx.args, ctx.vars
    ensures ctx.code == old(ctx.code) && ctx.defers == old(ctx.defers)
    ensures r.Pass? ==> Advanced(ctx)
    ensures !(old(ctx.tokens) != [] && old(ctx.tokens)[0].kind == Keyword
              && (old(ctx.tokens)[0].text == "else" || old(ctx.tokens)[0].text == "elseif")) ==>
      r == Pass && more == [] && ctx.tokens == old(ctx.tokens)
    ensures more == Concat(steps) && ElseSteps(heads, steps) && OneElse(heads)
    decreases 16 * |ctx.tokens| + 4
  {
    more, heads, steps := [], [], [];
    r := Pass;
    if !(ctx.tokens != [] && ctx.tokens[0].kind == Keyword && (ctx.tokens[0].text == "else" || ctx.tokens[0].text == "elseif")) {
      return;
    }
    var hasElse := false;
    var stop := false;
    while ctx.tokens != [] && !stop
      invariant Advanced(ctx) && ctx.code == old(ctx.code) && ctx.defers == old(ctx.defers)
      invariant more == Concat(steps) && ElseSteps(heads, steps) && OneElse(heads)
      invariant !hasElse ==> NoElse(heads)
      decreases |ctx.tokens|, !stop
    {
      ghost var a0, v0 := ctx.args.items, ctx.vars.items;
      var step;
      ghost var head, branch;
      ghost var hasElse0 := hasElse;
      r, step, hasElse, stop, head, branch := ElseLine(ctx, hasElse);
      if r.Fail? {
        return;
      }
      PrefixTrans(old(ctx.args.items), a0, ctx.args.items);
      PrefixTrans(old(ctx.vars.items), v0, ctx.vars.items);
      if !stop {
        ElseStepsSnoc(heads, steps, head, step);
        OneElseSnoc(heads, head, hasElse0);
        heads, steps := heads + [head], steps + [step];
        more := more + step;
      }
    }
  }

  /** One line of an `else` chain: `elseif <condition> {` gives a condition and a
      branch, `else {` a branch (but only once), and any other line stops the chain
      and goes back to the token stream. */
  method ElseLine(ctx: Context, hasElse: bool)
      returns (r: Outcome, step: seq<string>, hasElse2: bool, stop: bool, ghost head: seq<Token>, ghost branch: seq<string>)
    requires ctx.args != ctx.vars && ctx.tokens != []
    modifies ctx, ctx.args, ctx.vars
    ensures ctx.code == old(ctx.code) && ctx.defers == old(ctx.defers)
    ensures r.Pass? ==> Advanced(ctx) && (stop || |ctx.tokens| < |old(ctx.tokens)|)
    ensures head == NonBlank(FirstLine(old(ctx.tokens)))
    ensures head == [] ==> r == Fail(Crash)
    ensures IsElseifLine(head) && ConditionOf(head[1..]).Err? ==> r == Fail(ConditionOf(head[1..]).failure)
    ensures IsElseLine(head) && hasElse ==> r == Fail(ErrorAt(head[0], ""))
    ensures head != [] && !IsElseifLine(head) && !IsElseLine(head) ==>
      r == Pass && stop && step == [] && hasElse2 == hasElse && ctx.tokens == old(ctx.tokens)
    ensures stop ==> head != [] && !IsElseifLine(head) && !IsElseLine(head)
    ensures r.Pass? && !stop ==> ElseStep(head, step) && hasElse2 == (hasElse || IsElseLine(head))
    ensures r.Pass? && !stop ==> (step[|step| - 1] == IfBranch(branch, ctx.indent)
      && ctx.tokens == BraceBody(old(ctx.tokens)[LineLength(old(ctx.tokens))..], true).next)
    decreases 16 * |ctx.tokens| + 3
  {
    step, hasElse2, stop, branch := [], hasElse, false, [];
    var split := ReadLine(ctx.tokens);
    var line := split.value.line;
    var l := RemoveBlankTokens(line);
    head := l;
    ctx.tokens := split.value.next;
    if l == [] {
      return Fail(Crash), step, hasElse2, stop, head, branch;
    }
    var t := l[0];
    var body;
    if IsKeywordToken(t, "elseif") {
      var c := ParseCondition(l[1..]);
      if c.Err? {
        return Fail(c.failure), step, hasElse2, stop, head, branch;
      }
      r, body, branch := IfBody(ctx);
      step := [c.value, body];
    } else if IsKeywordToken(t, "else") {
      if hasElse {
        return Fail(ErrorAt(t, "")), step, hasElse2, stop, head, branch;
      }
      r, body, branch := IfBody(ctx);
      step, hasElse2 := [body], true;
    } else {
      ctx.tokens := line + ctx.tokens;
      r, stop := Pass, true;
    }
  }

  /** parseIf after its condition: the first branch, the `else` chain, then the code
      after the statement one level deeper with a nested return. */
  method IfBlocks(ctx: Context)
      returns (r: Outcome, more: seq<string>, next: seq<string>, ghost heads: seq<seq<Token>>, ghost steps: seq<seq<string>>)
    requires ctx.args != ctx.vars
    modifies ctx, ctx.args, ctx.vars
    ensures ctx.code == old(ctx.code) && ctx.defers == old(ctx.defers)
    ensures r.Pass? ==> Advanced(ctx) && |more| >= 1
    ensures r.Pass? ==> more[1..] == Concat(steps) && ElseSteps(heads, steps) && OneElse(heads)
    decreases 16 * |ctx.tokens| + 19
  {
    more, next, heads, steps := [], [], [], [];
    var body;
    ghost var lines;
    r, body, lines := IfBody(ctx);
    if r.Fail? {
      return;
    }
    var chain;
    ghost var a0, v0 := ctx.args.items, ctx.vars.items;
    r, chain, heads, steps := ElseChain(ctx);
    if r.Fail? {
      return;
    }
    PrefixTrans(old(ctx.args.items), a0, ctx.args.items);
    PrefixTrans(old(ctx.vars.items), v0, ctx.vars.items);
    var c := NewContext(ctx);
    c.indent := ctx.indent + 1;
    ghost var a1, v1 := ctx.args.items, ctx.vars.items;
    r := ParseNested(c, true, false);
    if r.Fail? {
      return;
    }
    PrefixTrans(old(ctx.args.items), a1, ctx.args.items);
    PrefixTrans(old(ctx.vars.items), v1, ctx.vars.items);
    ctx.tokens := c.tokens;
    more, next := [body] + chain, c.code;
    assert more[1..] == chain;
  }

  /** parseIf: the condition and branch of the `if`, then those of each `elseif` and
      at most one `else` on the lines that follow, and the rest of the enclosing block
      as the continuation, all in one ifCondition call. */
  method ParseIf(ctx: Context, ts: seq<Token>)
      returns (r: Outcome, parts: seq<string>, next: seq<string>, ghost heads: seq<seq<Token>>, ghost steps: seq<seq<string>>)
    requires ctx.args != ctx.vars
    modifies ctx, ctx.args, ctx.vars
    ensures ts == [] ==> r == Fail(Crash)
    ensures ts != [] && !IsSymbol(ts[|ts| - 1], "{") ==> r == Fail(ErrorAt(ts[|ts| - 1], ""))
    ensures r.Fail? ==> ctx.code == old(ctx.code)
    ensures r.Pass? ==> (
      Advanced(ctx) && ctx.defers == old(ctx.defers) && ts != []
      && |parts| >= 2 && parts[0] == "(" + CondText(ts[..|ts| - 1]) + ")"
      && ctx.code == old(ctx.code) + [Indentation(ctx.indent) + IfCode(parts, next, ctx.indent)])
    ensures r.Pass? ==> parts[2..] == Concat(steps) && ElseSteps(heads, steps) && OneElse(heads)
    decreases 16 * (|ctx.tokens| + |ts|) + 12
  {
    parts, next, heads, steps := [], [], [], [];
    var cond := ParseCondition(ts);
    if cond.Err? {
      return Fail(cond.failure), parts, next, heads, steps;
    }
    var more, rest;
    r, more, rest, heads, steps := IfBlocks(ctx);
    if r.Fail? {
      return;
    }
    parts, next := [cond.value] + more, rest;
    assert parts[2..] == more[1..];
    ctx.PushCodeLine(IfCode(parts, next, ctx.indent));
    r := Pass;
  }

  /** parseFor's blocks: the loop body (with a nested return) and the code after the
      loop, each compiled one level deeper. */
  method ForBlocks(ctx: Context) returns (r: Outcome, body: seq<string>, next: seq<string>)
    requires ctx.args != ctx.vars
    modifies ctx, ctx.args, ctx.vars
    ensures ctx.code == old(ctx.code) && ctx.defers == old(ctx.defers)
    ensures r.Pass? ==> Advanced(ctx)
    decreases 16 * |ctx.tokens| + 18
  {
    body, next := [], [];
    var c := NewContext(ctx);
    c.indent := ctx.indent + 1;
    r := ParseNested(c, true, false);
    if r.Fail? {
      return;
    }
    ctx.tokens := c.tokens;
    body := c.code;
    var d := NewContext(ctx);
    d.indent := ctx.indent + 1;
    r := ParseNested(d, false, false);
    if r.Fail? {
      return;
    }
    ctx.tokens := d.tokens;
    next := d.code;
  }

  /** parseFor: `for key in obj {` walks the object's keys, `for cond {` and `for {`
      loop on a condition; the code after the loop is its continuation. */
  method ParseFor(ctx: Context, ts: seq<Token>) returns (r: Outcome, ghost body: seq<string>, ghost next: seq<string>)
    requires ctx.args != ctx.vars
    modifies ctx, ctx.args, ctx.vars
    ensures ts == [] ==> r == Fail(Crash)
    ensures IsForEach(ts) && ts[0].kind != Identifier ==> r == Fail(ErrorAt(ts[0], ""))
    ensures !IsForEach(ts) && ForCondition(ts).Err? ==> r == Fail(ForCondition(ts).failure)
    ensures r.Fail? ==> ctx.code == old(ctx.code)
    ensures r.Pass? ==> Advanced(ctx) && ctx.defers == old(ctx.defers)
    ensures r.Pass? && IsForEach(ts) ==>
      ctx.code == old(ctx.code) + [Indentation(ctx.indent) + ForEachCode(ForEachObject(ts), ts[0].text, body, next, ctx.indent)]
    ensures r.Pass? && !IsForEach(ts) ==> (
      ForCondition(ts).Ok? &&
      ctx.code == old(ctx.code) + [Indentation(ctx.indent) + ConditionLoopCode(ForCondition(ts).value, body, next, ctx.indent)])
    decreases 16 * (|ctx.tokens| + |ts|) + 12
  {
    body, next := [], [];
    if |ts| >= 3 && ts[1].kind == Keyword && ts[1].text == "in" {
      if ts[0].kind != Identifier {
        return Fail(ErrorAt(ts[0], "")), body, next;
      }
      var key := ts[0].text;
      var obj := JoinTexts(ts[2..|ts| - 1]);
      var b, n;
      r, b, n := ForBlocks(ctx);
      if r.Fail? {
        return;
      }
      body, next := b, n;
      ctx.PushCodeLine(ForEachCode(obj, key, b, n, ctx.indent));
    } else {
      var condition: string;
      if |ts| == 1 && ts[0].kind == Symbol && ts[0].text == "{" {
        condition := "true";
      } else {
        var c := ParseCondition(ts);
        if c.Err? {
          return Fail(c.failure), body, next;
        }
        condition := c.value;
      }
      var b, n;
      r, b, n := ForBlocks(ctx);
      if r.Fail? {
        return;
      }
      body, next := b, n;
      ctx.PushCodeLine(ConditionLoopCode(condition, b, n, ctx.indent));
    }
    return Pass, body, next;
  }

  /** The parameter loop of parseFunction. */
  method FunctionParameters(ts: seq<Token>) returns (r: Result<seq<string>>)
    ensures r == FunctionParams(ts)
  {
    if ts == [] {
      return Err(Crash);
    }
    var lastT := ts[|ts| - 1];
    if !(lastT.kind == Symbol && lastT.text == "{") {
      return Err(ErrorAt(lastT, ""));
    }
    if |ts| == 1 {
      return Ok([]);
    }
    var argTokens := ts[..|ts| - 1];
    var firstT := argTokens[0];
    if !(firstT.kind == Symbol && firstT.text == "(") {
      return Err(ErrorAt(firstT, ""));
    }
    if !(argTokens[|argTokens| - 1].kind == Symbol && argTokens[|argTokens| - 1].text == ")") {
      return Err(ErrorAt(firstT, ""));
    }
    var inner := argTokens[1..|argTokens| - 1];
    var names: seq<string> := [];
    var isComma := true;
    var i := 0;
    assert inner[0..] == inner;
    PrefixedNothing(ParamsFrom(inner, true));
    while i < |inner|
      invariant 0 <= i <= |inner|
      invariant FunctionParams(ts) == Prefixed(names, ParamsFrom(inner[i..], isComma))
    {
      var t := inner[i];
      assert inner[i..][0] == t && inner[i..][1..] == inner[i + 1..];
      if isComma && t.kind == Identifier {
        match ParamsFrom(inner[i + 1..], false) {
          case Ok(ns) =>
            assert names + ([t.text] + ns) == names + [t.text] + ns;
          case Err(_) =>
        }
        names := names + [t.text];
        isComma := false;
      } else if !isComma && t.kind == Symbol && t.text == "," {
        isComma := true;
      } else {
        return Err(ErrorAt(t, ""));
      }
      i := i + 1;
    }
    assert inner[i..] == [];
    assert names + [] == names;
    return Ok(names);
  }

  /** parseFunction's body: compiled two levels deeper with a nested return, in a
      context with the shared arguments but a variable list of its own; the result
      is that context's variables, deferred actions and code. */
  method FunctionBody(ctx: Context)
      returns (r: Outcome, vars: seq<string>, defers: seq<string>, lines: seq<string>)
    requires ctx.args != ctx.vars
    modifies ctx, ctx.args
    ensures ctx.code == old(ctx.code) && ctx.defers == old(ctx.defers) && ctx.vars == old(ctx.vars)
    ensures r.Pass? ==> Advanced(ctx) && ctx.tokens == BraceBody(old(ctx.tokens), false).next
    decreases 16 * |ctx.tokens| + 18
  {
    vars, defers, lines := [], [], [];
    var c := NewContext(ctx);
    var own := new Names([]);
    c.vars := own;
    c.indent := ctx.indent + 2;
    r := ParseNested(c, true, false);
    if r.Fail? {
      return;
    }
    ctx.tokens := c.tokens;
    vars, defers, lines := c.vars.items, c.defers, c.code;
  }

  /** The three lines parseFunction pushes: a blank line, the function, a blank line. */
  method PushFunction(ctx: Context, line: string)
    modifies ctx
    ensures ctx.code == old(ctx.code) + [Indentation(ctx.indent), Indentation(ctx.indent) + line, Indentation(ctx.indent)]
    ensures old(ctx.code) <= ctx.code && Same(ctx)
  {
    assert Indentation(ctx.indent) + "" == Indentation(ctx.indent);
    ctx.PushCodeLine("");
    ctx.PushCodeLine(line);
    ctx.PushCodeLine("");
  }

  /** The code a passing parseFunction leaves after `before`: a blank line, the
      function (assigned to `name` when it has one) wrapping some body with the
      header's parameters and `$$_callback`, and a blank line. */
  ghost predicate FunctionPushed(name: string, ts: seq<Token>, before: seq<string>, after: seq<string>, indent: int) {
    FunctionParams(ts).Ok?
    && exists vars: seq<string>, defers: seq<string>, lines: seq<string> ::
         after == before + FunctionCode(name, FunctionParams(ts).value, vars, defers, lines, indent)
  }

  /** The three lines of a function wrapped from its parts, at depth `indent`. */
  function FunctionCode(name: string, params: seq<string>, vars: seq<string>, defers: seq<string>, lines: seq<string>, indent: int): seq<string> {
    [Indentation(indent),
     Indentation(indent) + FunctionLine(name, Wrap(params + ["$$_callback"], vars, defers, lines, indent + 2)),
     Indentation(indent)]
  }

  /** parseFunction: the body is compiled two levels deeper with variables of its
      own (the argument list is still shared while it is parsed), then wrapped with
      the parameters and the callback as the function's arguments. */
  method ParseFunction(ctx: Context, name: string, ts: seq<Token>)
      returns (r: Outcome, ghost vars: seq<string>, ghost defers: seq<string>, ghost lines: seq<string>)
    requires ctx.args != ctx.vars
    modifies ctx, ctx.args, ctx.vars
    ensures FunctionParams(ts).Err? ==> r == Fail(FunctionParams(ts).failure)
    ensures r.Fail? ==> ctx.code == old(ctx.code)
    ensures r.Pass? ==> (
      Advanced(ctx) && ctx.defers == old(ctx.defers) && ctx.vars.items == old(ctx.vars.items)
      && FunctionParams(ts).Ok? && ctx.tokens == BraceBody(old(ctx.tokens), false).next
      && ctx.code == old(ctx.code) + FunctionCode(name, FunctionParams(ts).value, vars, defers, lines, ctx.indent))
    decreases 16 * (|ctx.tokens| + |ts|) + 12
  {
    vars, defers, lines := [], [], [];
    var params := FunctionParameters(ts);
    if params.Err? {
      return Fail(params.failure), vars, defers, lines;
    }
    var v, d, l;
    r, v, d, l := FunctionBody(ctx);
    if r.Fail? {
      return;
    }
    vars, defers, lines := v, d, l;
    PushFunction(ctx, FunctionLine(name, Wrap(params.value + ["$$_callback"], v, d, l, ctx.indent + 2)));
    return Pass, vars, defers, lines;
  }
}
