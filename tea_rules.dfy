/** The statement rules of the intermediate (Tea) code generator (build/tea.js,
    syntax part) as functions on token lists and strings.  Where build/tea.js has
    the same code as build/bright.js (the argument list, return values, the await
    call, one-line defers, the if and for templates) the rules of BrightRules are
    used; this module holds what is Tea's own. */
module TeaRules {
  import opened Tokens
  import opened SyntaxCommon
  import opened Template
  import opened BrightRules

  // ---------------------------------------------------------------------------
  // addReturnAtEnd

  /** addReturnAtEnd: a `return` keyword on the line after the last token; an empty
      list stays empty. */
  function TeaAddReturn(ts: seq<Token>, nested: bool): (r: seq<Token>)
    ensures ts == [] ==> r == []
    ensures ts != [] ==> |r| == |ts| + 1 && r[..|ts|] == ts && IsKeywordToken(r[|ts|], "return")
                         && r[|ts|].nested == nested && r[|ts|].line == ts[|ts| - 1].line + 1
  {
    if ts == [] then [] else AddReturn(ts, nested)
  }

  // ---------------------------------------------------------------------------
  // parseNested

  /** The brace count after one line: a line that starts with `}` closes one level,
      otherwise a line that ends with `{` opens one. */
  function NestedStep(l: seq<Token>, brace: int): int
    requires l != []
  {
    if IsSymbol(l[0], "}") then brace - 1 else if IsSymbol(l[|l| - 1], "{") then brace + 1 else brace
  }

  /** parseNested's loop: whole lines go into the body until a line drives the count
      below zero; that line's tokens after its first are put back in front of the
      rest. */
  function NestedFrom(ts: seq<Token>, brace: int, body: seq<Token>): (r: BodySplit)
    ensures |r.body| + |r.next| <= |body| + |ts|
    decreases |ts|
  {
    if ts == [] then BodySplit(body, [])
    else
      var n := LineLength(ts);
      var b := NestedStep(ts[..n], brace);
      if b < 0 then BodySplit(body, (if n > 1 then ts[..n][1..] else []) + ts[n..])
      else NestedFrom(ts[n..], b, body + ts[..n])
  }

  function NestedBody(ts: seq<Token>): BodySplit {
    NestedFrom(ts, 0, [])
  }

  /** The block is everything up to the `}` that closes it, and only that `}` is
      dropped: the rest of its line and what follows come back.  Without such a `}`
      the whole list is the block. */
  lemma {:induction false} NestedFromSplits(ts: seq<Token>, brace: int, body: seq<Token>)
    requires brace >= 0
    ensures var r := NestedFrom(ts, brace, body); var all := body + ts;
      body <= r.body && r.body <= all
      && ((r.body == all && r.next == [])
          || (|r.body| < |all| && IsSymbol(all[|r.body|], "}") && r.next == all[|r.body| + 1..]))
    decreases |ts|
  {
    if ts != [] {
      var n := LineLength(ts);
      var b := NestedStep(ts[..n], brace);
      var all := body + ts;
      assert all == (body + ts[..n]) + ts[n..] by {
        assert ts == ts[..n] + ts[n..];
      }
      if b < 0 {
        assert IsSymbol(ts[0], "}");
        assert all[|body|] == ts[0];
        assert all[|body| + 1..] == ts[1..];
        if n > 1 {
          assert ts[..n][1..] + ts[n..] == ts[1..];
        } else {
          assert [] + ts[n..] == ts[1..];
        }
      } else {
        NestedFromSplits(ts[n..], b, body + ts[..n]);
      }
    } else {
      assert body + ts == body;
    }
  }

  lemma NestedBodySplits(ts: seq<Token>)
    ensures var r := NestedBody(ts);
      r.body <= ts
      && ((r.body == ts && r.next == [])
          || (|r.body| < |ts| && IsSymbol(ts[|r.body|], "}") && r.next == ts[|r.body| + 1..]))
  {
    NestedFromSplits(ts, 0, []);
    assert [] + ts == ts;
  }

  // ---------------------------------------------------------------------------
  // parseExpression and parseRequire

  /** The token kinds an expression may contain. */
  predicate ExpressionToken(t: Token) {
    t.kind == Identifier || t.kind == Number || t.kind == Str || t.kind == Symbol
  }

  /** The texts of an expression's tokens, run together; any other kind of token is
      an error at that token. */
  function ExpressionText(ts: seq<Token>): (r: Result<string>)
    ensures r.Ok? <==> forall k :: 0 <= k < |ts| ==> ExpressionToken(ts[k])
    ensures r.Ok? ==> r.value == Texts(ts)
    ensures r.Err? ==> exists k :: 0 <= k < |ts| && !ExpressionToken(ts[k]) && r.failure == ErrorAt(ts[k], "")
    decreases |ts|
  {
    if ts == [] then Ok("")
    else if !ExpressionToken(ts[0]) then Err(ErrorAt(ts[0], ""))
    else match ExpressionText(ts[1..])
      case Ok(s) => Ok(ts[0].text + s)
      case Err(f) => Err(f)
  }

  /** The error is at the first token that may not appear in an expression. */
  lemma {:induction false} ExpressionFirstError(ts: seq<Token>, k: nat)
    requires k < |ts| && !ExpressionToken(ts[k])
    requires forall j :: 0 <= j < k ==> ExpressionToken(ts[j])
    ensures ExpressionText(ts) == Err(ErrorAt(ts[k], ""))
    decreases k
  {
    if k > 0 {
      assert ExpressionToken(ts[0]);
      assert ts[1..][k - 1] == ts[k];
      ExpressionFirstError(ts[1..], k - 1);
    }
  }

  /** The prefix of an assignment to `name`: none when the name is empty (or, as for
      `names[0]` of an empty list, missing). */
  function Assigned(name: string): (s: string)
    ensures name == "" <==> s == ""
  {
    if name != "" then name + " = " else ""
  }

  /** parseExpression: the trimmed text of the expression as one statement, assigned
      to `name` when there is one. */
  function ExpressionCode(name: string, ts: seq<Token>): (r: Result<string>)
    ensures r.Ok? <==> forall k :: 0 <= k < |ts| ==> ExpressionToken(ts[k])
    ensures r.Ok? ==> r.value == Assigned(name) + Trim(Texts(ts)) + ";"
  {
    match ExpressionText(ts)
    case Ok(s) => Ok(Assigned(name) + Trim(s) + ";")
    case Err(f) => Err(f)
  }

  /** The first target of a `let`, as parseRequire reads it (`names[0]` when there is
      one). */
  function RequireTarget(names: seq<string>): string {
    if names != [] then names[0] + " = " else ""
  }

  /** parseRequire: exactly one identifier or string, loaded with `require`. */
  function RequireCode(names: seq<string>, ts: seq<Token>): (r: Result<string>)
    ensures r.Ok? <==> |ts| == 1 && (ts[0].kind == Identifier || ts[0].kind == Str)
    ensures r.Ok? ==> r.value == RequireTarget(names) + "require(" + ts[0].text + ");"
    ensures r.Err? && ts != [] ==> r.failure == ErrorAt(ts[0], "")
    ensures ts == [] ==> r == Err(Crash)
  {
    if ts == [] then Err(Crash)
    else if |ts| != 1 then Err(ErrorAt(ts[0], ""))
    else if !(ts[0].kind == Identifier || ts[0].kind == Str) then Err(ErrorAt(ts[0], ""))
    else Ok(RequireTarget(names) + "require(" + ts[0].text + ");")
  }

  // ---------------------------------------------------------------------------
  // let

  /** What a `let` statement turns into once its targets are read. */
  datatype TeaLetPlan =
    | AwaitLet(names: seq<string>, call: seq<Token>)
    | RequireLet(names: seq<string>, operand: seq<Token>)
    | ExpressionLet(name: string, expr: seq<Token>)

  /** parseLet's decisions, before any code is emitted. */
  function TeaLetStatement(ts: seq<Token>): (r: Result<TeaLetPlan>)
    requires ts != []
  {
    if |ts| < 3 then Err(ErrorAt(ts[|ts| - 1], "Unexpected end of input"))
    else match MultiArgument(ts)
      case Err(f) => Err(f)
      case Ok(tg) =>
        var names, rest := tg.names, tg.next;
        if rest == [] then Err(ErrorAt(ts[|ts| - 1], "Unexpected end of input"))
        else if rest[0].kind == Keyword then
          if rest[0].text == "await" then
            if |rest| < 2 then Err(ErrorAt(rest[0], "Unexpected end of input"))
            else Ok(AwaitLet(names, rest[1..]))
          else if rest[0].text == "require" then
            if |names| > 1 then Err(ErrorAt(rest[0], "Not support tuple assignment"))
            else if |rest| < 2 then Err(ErrorAt(rest[0], "Unexpected end of input"))
            else Ok(RequireLet(names, rest[1..]))
          else Err(ErrorAt(rest[0], ""))
        else if |names| > 1 then Err(ErrorAt(rest[0], "Not support tuple assignment"))
        else Ok(ExpressionLet(FirstName(names), rest))
  }

  /** What a let hands on to await or require is shorter than the statement. */
  lemma TeaLetOperandShorter(ts: seq<Token>)
    requires ts != [] && TeaLetStatement(ts).Ok?
    ensures TeaLetStatement(ts).value.AwaitLet? ==> 0 < |TeaLetStatement(ts).value.call| < |ts|
    ensures TeaLetStatement(ts).value.RequireLet? ==> 0 < |TeaLetStatement(ts).value.operand| < |ts|
  {
    ArgumentsFromSuffix(ts, 0, 0, []);
  }

  /** `let s0, …, sn = await call` passes every target to the await, in order; with
      more than one target, `require` and a plain expression are refused. */
  lemma TeaLetTargets(segs: seq<seq<Token>>, seps: seq<Token>, eq: Token, rest: seq<Token>)
    requires |segs| == |seps| + 1
    requires forall k :: 0 <= k < |segs| ==> PlainSegment(segs[k])
    requires forall k :: 0 <= k < |seps| ==> IsSymbol(seps[k], ",")
    requires IsSymbol(eq, "=") && |rest| >= 2
    ensures var ts := Listed(segs, seps) + [eq] + rest;
      |ts| >= 3
      && (IsKeywordToken(rest[0], "await") ==> TeaLetStatement(ts) == Ok(AwaitLet(SegmentTexts(segs), rest[1..])))
      && (IsKeywordToken(rest[0], "require") && |segs| > 1 ==>
            TeaLetStatement(ts) == Err(ErrorAt(rest[0], "Not support tuple assignment")))
      && (rest[0].kind != Keyword && |segs| > 1 ==> TeaLetStatement(ts) == Err(ErrorAt(rest[0], "Not support tuple assignment")))
  {
    MultiArgumentListed(segs, seps, eq, rest);
  }

  // ---------------------------------------------------------------------------
  // await

  /** The call an await opens: `await <number>` waits that many milliseconds;
      anything else is a call as in BrightRules.AwaitCall. */
  function TeaAwaitCall(ts: seq<Token>): (r: Result<string>)
    ensures |ts| == 1 && ts[0].kind == Number ==> r == Ok("$$_runtime.sleep(" + ts[0].text + ", ")
    ensures !(|ts| == 1 && ts[0].kind == Number) ==> r == AwaitCall(ts)
  {
    if |ts| == 1 && ts[0].kind == Number then Ok("$$_runtime.sleep(" + ts[0].text + ", ")
    else AwaitCall(ts)
  }

  /** The callback an await opens: the error first, then one parameter per target. */
  function TeaAwaitHeader(call: string, n: nat): string {
    call + "function ($$_err" + (if n > 0 then ", " + Join(ArgSlots(n), ", ") else "") + ") {"
  }

  /** The first line of every await callback: a failed call throws its error. */
  const ErrorCheck := "if ($$_err) throw $$_err;"

  /** The callback's parameters are `$$_err` followed by the targets' slots. */
  lemma TeaAwaitParameters(call: string, n: nat)
    ensures TeaAwaitHeader(call, n) == call + "function (" + Join(["$$_err"] + ArgSlots(n), ", ") + ") {"
  {
    var all := ["$$_err"] + ArgSlots(n);
    if n > 0 {
      assert all[1..] == ArgSlots(n);
    }
  }

  /** `await <number>` becomes a sleep whose callback takes the error and the
      targets. */
  lemma AwaitNumberSleeps(ts: seq<Token>, n: nat)
    requires |ts| == 1 && ts[0].kind == Number
    ensures TeaAwaitCall(ts).Ok?
    ensures TeaAwaitHeader(TeaAwaitCall(ts).value, n)
         == "$$_runtime.sleep(" + ts[0].text + ", function (" + Join(["$$_err"] + ArgSlots(n), ", ") + ") {"
  {
    var call := "$$_runtime.sleep(" + ts[0].text + ", ";
    assert TeaAwaitCall(ts) == Ok(call);
    TeaAwaitParameters(call, n);
  }

  // ---------------------------------------------------------------------------
  // Statement dispatch

  /** The statement keywords that need at least one token after them. */
  predicate TeaNeedsOperand(kw: string) {
    kw in ["argument", "var", "let", "require", "await", "defer", "if", "for"]
  }

  /** The keywords syntax.parse starts a statement with. */
  predicate TeaStatementKeyword(kw: string) {
    TeaNeedsOperand(kw) || kw in ["return", "break", "continue"]
  }

  /** How syntax.parse refuses a line before handing it on: any other keyword is an
      unexpected token, and a keyword that needs an operand and has none is an
      unexpected end of input. */
  function TeaRefusal(line: seq<Token>): (r: Option<Failure>)
    requires line != []
    ensures r.Some? ==> line[0].kind == Keyword
    ensures r == None <==>
      (line[0].kind != Keyword || (TeaStatementKeyword(line[0].text) && (|line| >= 2 || !TeaNeedsOperand(line[0].text))))
  {
    var t := line[0];
    if t.kind != Keyword then None
    else if !TeaStatementKeyword(t.text) then Some(ErrorAt(t, ""))
    else if TeaNeedsOperand(t.text) && |line| < 2 then Some(ErrorAt(t, "Unexpected end of input"))
    else None
  }

  // ---------------------------------------------------------------------------
  // The compiled function

  /** The lines that install the deferred actions, and the end of that block. */
  const TeaDeferTail: seq<string> :=
    ["    var $$_oldCallback = $$_callback;",
     "    $$_callback = $$_callback_global = function () {",
     "      var $$_args = arguments;",
     "      $$_runtime.runDefers($$_defers, $$_args[0], function (err) {",
     "        if (err) $$_runtime.error(err.stack);",
     "        $$_oldCallback.apply(null, $$_args);",
     "      });",
     "    };"]

  /** The deferred-action block: one registration per action, in the order the defer
      statements appeared. */
  function TeaDeferLines(defers: seq<string>): (r: seq<string>)
    ensures |r| == |defers| + 1 + |TeaDeferTail|
    ensures r[0] == "    var $$_defers = [];" && r[1 + |defers|..] == TeaDeferTail
    ensures forall i :: 0 <= i < |defers| ==> r[1 + i] == DeferPush(defers[i])
  {
    ["    var $$_defers = [];"] + seq(|defers|, i requires 0 <= i < |defers| => DeferPush(defers[i])) + TeaDeferTail
  }

  function TeaDefersCode(defers: seq<string>): (s: string)
    ensures defers == [] <==> s == ""
  {
    if defers == [] then "" else Join(TeaDeferLines(defers), "\n") + "\n"
  }

  /** The header that checks the number of arguments: with any other number the
      error goes to the last argument when it is a function, and is thrown
      otherwise. */
  const TeaGuard: Pieces :=
    Then(Text("  \"use strict\";\n"),
    Then(Text("  if (arguments.length !== "), Then(Arity, Then(Text(") {\n"),
    Then(Text("    var $$_callback = arguments[arguments.length - 1];\n"),
    Then(Text("    var $$_err = new Error(\"Not enough arguments\");\n"),
    Then(Text("    if (typeof($$_callback) === \"function\") {\n"),
    Then(Text("      return $$_callback($$_err);\n"),
    Then(Text("    } else {\n"),
    Then(Text("      throw $$_err;\n"),
    Then(Text("    }\n"),
    Then(Text("  }\n"),
    Then(Text("  var $$_callback_global = $$_callback;\n"),
    Then(Text("  try {\n"),
    End))))))))))))))

  const TeaClose: Pieces :=
    Then(Text("  } catch (err) {\n"),
    Then(Text("    return $$_callback_global(err);\n"),
    Then(Text("  }\n"),
    Then(Text("})"),
    End))))

  /** The template of the compiled function, filled. */
  function TeaWrapWith(u: Unit): string {
    Fill(WrapOpen, u) + Fill(TeaGuard, u) + Fill(WrapMain, u) + Fill(TeaClose, u)
  }

  /** What the template is filled with: the arguments and then the callback as
      parameters, the declaration and the deferred actions when there are any. */
  function TeaUnit(args: seq<string>, vars: seq<string>, defers: seq<string>, code: seq<string>): (u: Unit)
    ensures u.params == args + ["$$_callback"] && u.code == code
    ensures vars == [] <==> u.declarations == ""
    ensures defers == [] <==> u.deferred == ""
  {
    Unit(args + ["$$_callback"], VarsCode(vars), TeaDefersCode(defers), code, "")
  }

  /** The end of syntax.parse for the top-level context: the compiled function. */
  function TeaWrap(args: seq<string>, vars: seq<string>, defers: seq<string>, code: seq<string>): string {
    TeaWrapWith(TeaUnit(args, vars, defers, code))
  }

  /** The compiled function starts with its parameter list and then checks that it
      was called with exactly as many arguments as it has parameters. */
  lemma TeaWrapChecksArity(u: Unit)
    ensures "(function (" + Join(u.params, ", ") + ") {\n" + "  \"use strict\";\n"
            + "  if (arguments.length !== " + IntToString(|u.params|) + ") {\n" <= TeaWrapWith(u)
  {
    OpenFilled(u);
    GuardFilled(u);
    SevenPrefix("(function (", Join(u.params, ", "), ") {\n", "  \"use strict\";\n", "  if (arguments.length !== ",
                IntToString(|u.params|), ") {\n", Fill(TeaGuard.tail.tail.tail.tail, u), Fill(WrapMain, u), Fill(TeaClose, u));
  }

  lemma OpenFilled(u: Unit)
    ensures Fill(WrapOpen, u) == "(function (" + Join(u.params, ", ") + ") {\n"
  {
    assert Fill(WrapOpen.tail.tail, u) == ") {\n";
  }

  lemma GuardFilled(u: Unit)
    ensures Fill(TeaGuard, u) == "  \"use strict\";\n" + "  if (arguments.length !== " + IntToString(|u.params|) + ") {\n"
                                 + Fill(TeaGuard.tail.tail.tail.tail, u)
  {
    var t1 := TeaGuard.tail;
    var t2 := t1.tail;
    var t3 := t2.tail;
    var g := t3.tail;
    assert Fill(TeaGuard, u) == "  \"use strict\";\n" + Fill(t1, u);
    assert Fill(t1, u) == "  if (arguments.length !== " + Fill(t2, u);
    assert Fill(t2, u) == IntToString(|u.params|) + Fill(t3, u);
    assert Fill(t3, u) == ") {\n" + Fill(g, u);
    FourNested("  \"use strict\";\n", "  if (arguments.length !== ", IntToString(|u.params|), ") {\n", Fill(g, u));
  }

  lemma FourNested(a: string, b: string, c: string, d: string, e: string)
    ensures a + (b + (c + (d + e))) == a + b + c + d + e
  {
  }

  /** Seven texts in a row start the concatenation of the first three, the next four
      with more after them, and two more texts. */
  lemma SevenPrefix(p1: string, p2: string, p3: string, p4: string, p5: string, p6: string, p7: string,
                    g: string, m: string, c: string)
    ensures p1 + p2 + p3 + p4 + p5 + p6 + p7 <= (p1 + p2 + p3) + (p4 + p5 + p6 + p7 + g) + m + c
  {
    var head := p1 + p2 + p3 + p4 + p5 + p6 + p7;
    assert (p1 + p2 + p3) + (p4 + p5 + p6 + p7 + g) + m + c == head + (g + m + c);
  }

  /** The count it checks is the number of arguments plus the callback. */
  lemma TeaWrapArity(args: seq<string>, vars: seq<string>, defers: seq<string>, code: seq<string>)
    ensures "(function (" + Join(args + ["$$_callback"], ", ") + ") {\n" + "  \"use strict\";\n"
            + "  if (arguments.length !== " + IntToString(|args| + 1) + ") {\n" <= TeaWrap(args, vars, defers, code)
  {
    TeaWrapChecksArity(TeaUnit(args, vars, defers, code));
  }
}
