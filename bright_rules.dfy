/** The statement rules of the bright code generator (build/bright.js, syntax part) as
    functions on token lists and strings: what each statement accepts, which names it
    declares and which JavaScript lines it emits.  The imperative parser in
    BrightParser follows these rules step by step. */
module BrightRules {
  import opened Tokens
  import opened SyntaxCommon
  import opened Template

  // ---------------------------------------------------------------------------
  // Emitted lines

  /** addLineNumber: the 1-based line marker around a statement. */
  function LineMarker(t: Token, msg: string): (s: string)
    ensures "/* LINE:" <= s
  {
    "/* LINE:" + IntToString(t.line + 1) + " " + msg + " */"
  }

  /** The callback parameters `$$_arg_0 … $$_arg_(n-1)`. */
  function ArgSlots(n: nat): (r: seq<string>)
    ensures |r| == n && forall i :: 0 <= i < n ==> r[i] == ArgSlot(i)
  {
    seq(n, i requires 0 <= i < n => ArgSlot(i))
  }

  /** What parseReturn emits: the callback is called with `null` and then the values. */
  function ReturnLine(values: seq<string>, nested: bool): string {
    "return $$_callback" + (if nested then "" else "_global") + "(" + Join(["null"] + values, ", ") + ");"
  }

  /** The argument list of a return starts with `null`, and the values follow in order. */
  lemma ReturnArguments(values: seq<string>, nested: bool)
    ensures ReturnLine(values, nested)
         == "return $$_callback" + (if nested then "" else "_global") + "(null"
            + (if values == [] then "" else ", " + Join(values, ", ")) + ");"
  {
    var all := ["null"] + values;
    if values != [] {
      assert all[1..] == values;
    }
  }

  // ---------------------------------------------------------------------------
  // argument

  /** The identifiers of a list, in order. */
  function IdentifierTexts(ts: seq<Token>): (r: seq<string>)
    ensures |r| <= |ts|
    decreases |ts|
  {
    if ts == [] then [] else IdentifierPiece(ts[0]) + IdentifierTexts(ts[1..])
  }

  function IdentifierPiece(t: Token): seq<string> {
    if t.kind == Identifier then [t.text] else []
  }

  /** parseArgument: identifiers are declared in order; a comma is allowed unless
      the token before it was a comma; anything else is an error at that token. */
  function ArgumentList(ts: seq<Token>, isComma: bool): Result<seq<string>>
    decreases |ts|
  {
    if ts == [] then Ok([])
    else if ts[0].kind == Identifier then
      match ArgumentList(ts[1..], false)
      case Ok(ns) => Ok([ts[0].text] + ns)
      case Err(f) => Err(f)
    else if IsSymbol(ts[0], ",") && !isComma then ArgumentList(ts[1..], true)
    else Err(ErrorAt(ts[0], ""))
  }

  /** Token k of an argument list is acceptable: an identifier, or a comma that does
      not follow a comma. */
  predicate ArgumentOk(ts: seq<Token>, k: nat, isComma: bool)
    requires k < |ts|
  {
    ts[k].kind == Identifier
    || (IsSymbol(ts[k], ",") && !(if k == 0 then isComma else IsSymbol(ts[k - 1], ",")))
  }

  /** An argument list is accepted exactly when every token is acceptable, and then
      it declares its identifiers in order. */
  lemma {:induction false} ArgumentListAccepts(ts: seq<Token>, isComma: bool)
    ensures ArgumentList(ts, isComma).Ok? <==> forall k :: 0 <= k < |ts| ==> ArgumentOk(ts, k, isComma)
    ensures ArgumentList(ts, isComma).Ok? ==> ArgumentList(ts, isComma).value == IdentifierTexts(ts)
    decreases |ts|
  {
    if ts != [] {
      var next := IsSymbol(ts[0], ",");
      ArgumentListAccepts(ts[1..], next);
      forall k | 1 <= k < |ts|
        ensures ArgumentOk(ts, k, isComma) <==> ArgumentOk(ts[1..], k - 1, next)
      {
      }
      if !ArgumentOk(ts, 0, isComma) {
        assert ArgumentList(ts, isComma).Err?;
      } else if ArgumentList(ts[1..], next).Ok? {
        assert forall k :: 0 <= k < |ts| - 1 ==> ArgumentOk(ts[1..], k, next);
        assert forall k :: 0 <= k < |ts| ==> ArgumentOk(ts, k, isComma) by {
          forall k | 0 <= k < |ts| ensures ArgumentOk(ts, k, isComma) {
            if k > 0 {
              assert ArgumentOk(ts[1..], k - 1, next);
            }
          }
        }
      } else {
        var k :| 0 <= k < |ts| - 1 && !ArgumentOk(ts[1..], k, next);
        assert !ArgumentOk(ts, k + 1, isComma);
      }
    }
  }

  // ---------------------------------------------------------------------------
  // var

  /** The state of parseVar's loop: whether an initialiser is being collected, the
      latest declared name (`""` for the source's `null`), the open brackets and the
      initialiser tokens. */
  datatype VarState = VarState(isInit: bool, currName: string, brackets: seq<Token>, init: seq<Token>)

  /** An initialisation `name = expr` that parseVar hands to parseExpression. */
  datatype Assignment = Assignment(name: string, expr: seq<Token>)

  /** What one token of a `var` statement does: the next state, the name it
      declares, if any, and the initialisation it completes, if any. */
  datatype VarMove = VarMove(next: VarState, declared: seq<string>, lines: seq<Assignment>)

  /** The declared names and the initialisations of a `var` statement. */
  datatype VarOutput = VarOutput(vars: seq<string>, lines: seq<Assignment>)

  const VarStart := VarState(false, "", [], [])

  /** The bracket a closing bracket must match. */
  function Opener(close: string): string {
    if close == ")" then "(" else "["
  }

  /** The `;` that closes an initialiser, at the place of the comma that ends it. */
  function Semicolon(c: Token): Token {
    NewToken(Symbol, c.line, c.column, ";")
  }

  /** One iteration of parseVar's loop.  Outside an initialiser an identifier is
      declared, and after a declared name `,` and `=` are accepted; inside one,
      brackets are tracked and a top-level comma ends it with `name = <tokens>;`.
      Closing a bracket that was never opened reads a property of undefined, a host
      TypeError. */
  function VarStep(t: Token, st: VarState): (r: Result<VarMove>)
    ensures r.Ok? && |r.value.declared| == 1 ==> !st.isInit && t.kind == Identifier && r.value.declared == [t.text]
    ensures r.Ok? && r.value.lines != [] ==> st.isInit && IsSymbol(t, ",") && st.brackets == [] && !r.value.next.isInit
  {
    if st.isInit then
      if t.kind == Symbol && (t.text == "(" || t.text == "[") then
        Ok(VarMove(st.(brackets := st.brackets + [t], init := st.init + [t]), [], []))
      else if t.kind == Symbol && (t.text == ")" || t.text == "]") then
        if st.brackets == [] then Err(Crash)
        else if st.brackets[|st.brackets| - 1].text != Opener(t.text) then Err(ErrorAt(t, ""))
        else Ok(VarMove(st.(brackets := st.brackets[..|st.brackets| - 1], init := st.init + [t]), [], []))
      else if t.kind == Symbol && t.text == "," && st.brackets == [] then
        var line := st.init + [Semicolon(t)];
        Ok(VarMove(st.(isInit := false, init := line), [], [Assignment(st.currName, line)]))
      else Ok(VarMove(st.(init := st.init + [t]), [], []))
    else if t.kind == Identifier then
      Ok(VarMove(VarState(false, t.text, [], []), [t.text], []))
    else if st.currName != "" && t.kind == Symbol then
      if t.text == "," then Ok(VarMove(st.(isInit := false), [], []))
      else if t.text == "=" then Ok(VarMove(st.(isInit := true), [], []))
      else Err(ErrorAt(t, ""))
    else Err(ErrorAt(t, ""))
  }

  /** parseVar's loop over a list. */
  function VarFrom(ts: seq<Token>, st: VarState): Result<VarOutput>
    decreases |ts|
  {
    if ts == [] then Ok(VarOutput([], []))
    else match VarStep(ts[0], st)
      case Err(f) => Err(f)
      case Ok(m) =>
        match VarFrom(ts[1..], m.next)
        case Err(f) => Err(f)
        case Ok(o) => Ok(VarOutput(m.declared + o.vars, m.lines + o.lines))
  }

  /** The comma parseVar appends after the last token. */
  function VarEnd(last: Token): Token {
    NewToken(Symbol, last.line, last.column + |last.text|, ",")
  }

  /** parseVar on a whole statement. */
  function VarStatement(ts: seq<Token>): Result<VarOutput> {
    if ts == [] then Err(Crash) else VarFrom(ts + [VarEnd(ts[|ts| - 1])], VarStart)
  }

  /** A token that neither declares nor completes a line only moves the state. */
  lemma VarQuietAt(ts: seq<Token>, i: nat, st: VarState, next: VarState)
    requires i < |ts| && VarStep(ts[i], st) == Ok(VarMove(next, [], []))
    ensures VarFrom(ts[i..], st) == VarFrom(ts[i + 1..], next)
  {
    assert ts[i..][0] == ts[i];
    assert ts[i..][1..] == ts[i + 1..];
    match VarFrom(ts[i + 1..], next)
    case Err(f) =>
    case Ok(o) =>
      assert [] + o.vars == o.vars && [] + o.lines == o.lines;
  }

  lemma VarDeclareAt(ts: seq<Token>, i: nat, st: VarState)
    requires i < |ts| && !st.isInit && ts[i].kind == Identifier
    requires VarFrom(ts[i + 1..], VarState(false, ts[i].text, [], [])).Ok?
    ensures var o := VarFrom(ts[i + 1..], VarState(false, ts[i].text, [], [])).value;
      VarFrom(ts[i..], st) == Ok(VarOutput([ts[i].text] + o.vars, o.lines))
  {
    assert ts[i..][0] == ts[i];
    assert ts[i..][1..] == ts[i + 1..];
    var o := VarFrom(ts[i + 1..], VarState(false, ts[i].text, [], [])).value;
    assert [] + o.lines == o.lines;
  }

  lemma VarLineAt(ts: seq<Token>, i: nat, st: VarState)
    requires i < |ts| && st.isInit && st.brackets == [] && IsSymbol(ts[i], ",")
    requires VarFrom(ts[i + 1..], st.(isInit := false, init := st.init + [Semicolon(ts[i])])).Ok?
    ensures var line := st.init + [Semicolon(ts[i])];
      var o := VarFrom(ts[i + 1..], st.(isInit := false, init := line)).value;
      VarFrom(ts[i..], st) == Ok(VarOutput(o.vars, [Assignment(st.currName, line)] + o.lines))
  {
    assert ts[i..][0] == ts[i];
    assert ts[i..][1..] == ts[i + 1..];
    var line := st.init + [Semicolon(ts[i])];
    var o := VarFrom(ts[i + 1..], st.(isInit := false, init := line)).value;
    assert [] + o.vars == o.vars;
  }

  /** A statement declares exactly its identifiers outside initialisers: every
      declared name is an identifier token of the statement. */
  lemma {:induction false} VarDeclaresIdentifiers(ts: seq<Token>, st: VarState)
    requires VarFrom(ts, st).Ok?
    ensures |VarFrom(ts, st).value.vars| <= |ts|
    ensures forall v :: v in VarFrom(ts, st).value.vars ==> exists k :: 0 <= k < |ts| && ts[k].kind == Identifier && ts[k].text == v
    decreases |ts|
  {
    if ts != [] {
      var m := VarStep(ts[0], st).value;
      VarDeclaresIdentifiers(ts[1..], m.next);
      var o := VarFrom(ts[1..], m.next).value;
      assert VarFrom(ts, st).value.vars == m.declared + o.vars;
      forall v | v in m.declared + o.vars
        ensures exists k :: 0 <= k < |ts| && ts[k].kind == Identifier && ts[k].text == v
      {
        if v in o.vars {
          var k :| 0 <= k < |ts[1..]| && ts[1..][k].kind == Identifier && ts[1..][k].text == v;
          assert ts[k + 1] == ts[1..][k];
        } else {
          assert ts[0].kind == Identifier && ts[0].text == v;
        }
      }
    }
  }

  lemma {:induction false} VarNames(ts: seq<Token>, st: VarState)
    requires !st.isInit
    requires forall k :: 0 <= k < |ts| ==> ts[k].kind == Identifier || IsSymbol(ts[k], ",")
    requires forall k :: 0 <= k < |ts| && ts[k].kind == Identifier ==> ts[k].text != ""
    requires ts != [] && ts[0].kind != Identifier ==> st.currName != ""
    ensures VarFrom(ts, st) == Ok(VarOutput(IdentifierTexts(ts), []))
    decreases |ts|
  {
    if ts != [] {
      var m := VarStep(ts[0], st).value;
      VarNames(ts[1..], m.next);
      var rest := IdentifierTexts(ts[1..]);
      if ts[0].kind == Identifier {
        assert m.declared == [ts[0].text] && m.lines == [];
        assert IdentifierTexts(ts) == [ts[0].text] + rest;
        assert VarFrom(ts, st) == Ok(VarOutput(m.declared + rest, m.lines + []));
        assert m.lines + [] == [];
      } else {
        assert IdentifierTexts(ts) == [] + rest;
        VarQuietAt(ts, 0, st, m.next);
        assert ts[0..] == ts;
      }
    }
  }

  /** A plain list of names: identifiers separated by commas. */
  predicate NameList(ts: seq<Token>) {
    ts != [] && ts[0].kind == Identifier
    && forall k :: 0 <= k < |ts| ==> (ts[k].kind == Identifier && ts[k].text != "") || IsSymbol(ts[k], ",")
  }

  /** `var a, b, c` declares exactly its names, in order, and emits no code. */
  lemma VarDeclaresNames(ts: seq<Token>)
    requires NameList(ts)
    ensures VarStatement(ts) == Ok(VarOutput(IdentifierTexts(ts), []))
  {
    var all := ts + [VarEnd(ts[|ts| - 1])];
    VarNames(all, VarStart);
    IdentifierTextsAppend(ts, [VarEnd(ts[|ts| - 1])]);
    assert [VarEnd(ts[|ts| - 1])][1..] == [];
    assert IdentifierTexts([VarEnd(ts[|ts| - 1])]) == [];
    assert IdentifierTexts(ts) + [] == IdentifierTexts(ts);
  }

  lemma {:induction false} IdentifierTextsAppend(a: seq<Token>, b: seq<Token>)
    ensures IdentifierTexts(a + b) == IdentifierTexts(a) + IdentifierTexts(b)
    decreases |a|
  {
    if a == [] {
      assert a + b == b;
    } else {
      assert (a + b)[1..] == a[1..] + b;
      IdentifierTextsAppend(a[1..], b);
    }
  }

  /** Inside an initialiser without brackets or commas, tokens are only collected. */
  lemma {:induction false} VarCollects(ts: seq<Token>, i: nat, j: nat, st: VarState)
    requires i <= j <= |ts| && st.isInit && st.brackets == []
    requires forall k :: i <= k < j ==> !Opens(ts[k]) && !Closes(ts[k]) && !IsSymbol(ts[k], ",")
    ensures VarFrom(ts[i..], st) == VarFrom(ts[j..], st.(init := st.init + ts[i..j]))
    decreases j - i
  {
    if i == j {
      assert st.init + ts[i..j] == st.init;
    } else {
      var next := st.(init := st.init + [ts[i]]);
      assert VarStep(ts[i], st) == Ok(VarMove(next, [], []));
      VarQuietAt(ts, i, st, next);
      VarCollects(ts, i + 1, j, next);
      assert st.init + [ts[i]] + ts[i + 1..j] == st.init + ts[i..j];
    }
  }

  /** An initialiser without brackets or commas, closed by a comma. */
  lemma VarInitLine(all: seq<Token>, st: VarState)
    requires |all| >= 3 && st.isInit && st.brackets == [] && st.init == []
    requires IsSymbol(all[|all| - 1], ",")
    requires forall k :: 2 <= k < |all| - 1 ==> !Opens(all[k]) && !Closes(all[k]) && !IsSymbol(all[k], ",")
    ensures var c := all[|all| - 1];
      VarFrom(all[2..], st)
      == Ok(VarOutput([], [Assignment(st.currName, all[2..|all| - 1] + [Semicolon(c)])]))
  {
    var n := |all| - 1;
    var st2 := st.(init := all[2..n]);
    assert st.(init := st.init + all[2..n]) == st2;
    VarCollects(all, 2, n, st);
    assert all[n..] == [all[n]];
    VarLastLine(all[n..], st2);
  }

  /** A top-level comma that is the last token closes the initialiser and ends the
      statement with its one line. */
  lemma {:induction false} VarLastLine(ts: seq<Token>, st: VarState)
    requires |ts| == 1 && st.isInit && st.brackets == [] && IsSymbol(ts[0], ",")
    ensures VarFrom(ts, st) == Ok(VarOutput([], [Assignment(st.currName, st.init + [Semicolon(ts[0])])]))
  {
    var line := st.init + [Semicolon(ts[0])];
    var m := VarMove(st.(isInit := false, init := line), [], [Assignment(st.currName, line)]);
    assert VarStep(ts[0], st) == Ok(m);
    assert ts[1..] == [];
    assert VarFrom(ts[1..], m.next) == Ok(VarOutput([], []));
    assert VarFrom(ts, st) == Ok(VarOutput(m.declared + [], m.lines + []));
    assert m.declared + [] == [] && m.lines + [] == m.lines;
  }

  lemma VarAssigned(all: seq<Token>)
    requires |all| >= 3 && all[0].kind == Identifier && all[0].text != "" && IsSymbol(all[1], "=")
    requires IsSymbol(all[|all| - 1], ",")
    requires forall k :: 2 <= k < |all| - 1 ==> !Opens(all[k]) && !Closes(all[k]) && !IsSymbol(all[k], ",")
    ensures var c := all[|all| - 1];
      VarFrom(all, VarStart)
      == Ok(VarOutput([all[0].text], [Assignment(all[0].text, all[2..|all| - 1] + [Semicolon(c)])]))
  {
    VarAssignedAfterName(all);
    VarDeclareAt(all, 0, VarStart);
    assert all[0..] == all;
    assert [all[0].text] + [] == [all[0].text];
  }

  /** After the name, `= e,` collects `e` and closes it into one line. */
  lemma VarAssignedAfterName(all: seq<Token>)
    requires |all| >= 3 && all[0].text != "" && IsSymbol(all[1], "=") && IsSymbol(all[|all| - 1], ",")
    requires forall k :: 2 <= k < |all| - 1 ==> !Opens(all[k]) && !Closes(all[k]) && !IsSymbol(all[k], ",")
    ensures VarFrom(all[1..], VarState(false, all[0].text, [], []))
      == Ok(VarOutput([], [Assignment(all[0].text, all[2..|all| - 1] + [Semicolon(all[|all| - 1])])]))
  {
    var st := VarState(false, all[0].text, [], []);
    var st1 := st.(isInit := true);
    VarInitLine(all, st1);
    assert VarStep(all[1], st) == Ok(VarMove(st1, [], []));
    VarQuietAt(all, 1, st, st1);
  }

  /** `var x = e` declares x and emits `x = e;`, the semicolon at the position of the
      comma parseVar appends. */
  lemma VarInitialised(ts: seq<Token>)
    requires |ts| >= 3 && ts[0].kind == Identifier && ts[0].text != "" && IsSymbol(ts[1], "=")
    requires forall k :: 2 <= k < |ts| ==> !Opens(ts[k]) && !Closes(ts[k]) && !IsSymbol(ts[k], ",")
    ensures var c := VarEnd(ts[|ts| - 1]);
      VarStatement(ts)
      == Ok(VarOutput([ts[0].text], [Assignment(ts[0].text, ts[2..] + [Semicolon(c)])]))
  {
    var all := ts + [VarEnd(ts[|ts| - 1])];
    assert all[2..|all| - 1] == ts[2..];
    VarAssigned(all);
  }

  /** `var a = 1, = 2`: the closed initialiser keeps its `;`, and a second `=` on the
      same name goes on collecting after it, so the second line is `a = 1;2;`. */
  lemma VarReusesInitialiser(a: Token, eq1: Token, one: Token, comma: Token, eq2: Token, two: Token)
    requires a.kind == Identifier && a.text != ""
    requires IsSymbol(eq1, "=") && IsSymbol(comma, ",") && IsSymbol(eq2, "=")
    requires one.kind == Number && two.kind == Number
    ensures var first := [one, Semicolon(comma)];
      VarStatement([a, eq1, one, comma, eq2, two])
      == Ok(VarOutput([a.text], [Assignment(a.text, first), Assignment(a.text, first + [two, Semicolon(VarEnd(two))])]))
  {
    var ts := [a, eq1, one, comma, eq2, two];
    var all := ts + [VarEnd(two)];
    assert all == [a, eq1, one] + [comma, eq2, two, VarEnd(two)];
    assert ts[|ts| - 1] == two;
    assert all[0] == a && all[1] == eq1 && all[2] == one;
    assert all[3..] == [comma, eq2, two, VarEnd(two)];
    var s3 := VarState(true, a.text, [], [one]);
    var first := [one, Semicolon(comma)];
    assert s3.init + [Semicolon(all[3..][0])] == first;
    VarReuseTail(all[3..], s3);
    assert VarFrom(all[3..], s3)
      == Ok(VarOutput([], [Assignment(a.text, first), Assignment(a.text, first + [two, Semicolon(VarEnd(two))])]));
    VarReuseHead(all, 3);
    assert [a.text] + [] == [a.text];
  }

  /** The head of `var a = 1, …`: `a` is declared and the initialiser holds `1`. */
  lemma VarReuseHead(all: seq<Token>, i: nat)
    requires i == 3 && |all| > i && all[0].kind == Identifier && all[0].text != ""
    requires IsSymbol(all[1], "=") && all[2].kind == Number
    requires VarFrom(all[i..], VarState(true, all[0].text, [], [all[2]])).Ok?
    ensures var o := VarFrom(all[i..], VarState(true, all[0].text, [], [all[2]])).value;
      VarFrom(all, VarStart) == Ok(VarOutput([all[0].text] + o.vars, o.lines))
  {
    var s1 := VarState(false, all[0].text, [], []);
    var s2 := s1.(isInit := true);
    var s3 := VarState(true, all[0].text, [], [all[2]]);
    assert s2.init + [all[2]] == [all[2]];
    assert VarStep(all[1], s1) == Ok(VarMove(s2, [], []));
    assert VarStep(all[2], s2) == Ok(VarMove(s3, [], []));
    VarQuietAt(all, 2, s2, s3);
    VarQuietAt(all, 1, s1, s2);
    VarDeclareAt(all, 0, VarStart);
    assert all[0..] == all;
  }

  /** The tail `, = 2 ,` of an initialiser: the first comma closes it with its
      `;` kept, `=` reopens it, and the last comma closes it again. */
  lemma VarReuseTail(ts: seq<Token>, st: VarState)
    requires |ts| == 4 && st.isInit && st.brackets == []
    requires IsSymbol(ts[0], ",") && IsSymbol(ts[1], "=") && ts[2].kind == Number && IsSymbol(ts[3], ",")
    requires st.currName != ""
    ensures var first := st.init + [Semicolon(ts[0])];
      VarFrom(ts, st) == Ok(VarOutput([], [Assignment(st.currName, first),
                                           Assignment(st.currName, first + [ts[2], Semicolon(ts[3])])]))
  {
    var first := st.init + [Semicolon(ts[0])];
    var s4 := st.(isInit := false, init := first);
    var s5 := s4.(isInit := true);
    var s6 := s5.(init := first + [ts[2]]);
    var second := Assignment(st.currName, first + [ts[2], Semicolon(ts[3])]);
    assert VarStep(ts[1], s4) == Ok(VarMove(s5, [], []));
    assert VarStep(ts[2], s5) == Ok(VarMove(s6, [], []));
    assert ts[3..] == [ts[3]];
    VarLastLine(ts[3..], s6);
    assert s6.init + [Semicolon(ts[3])] == second.expr;
    VarQuietAt(ts, 2, s5, s6);
    VarQuietAt(ts, 1, s4, s5);
    VarLineAt(ts, 0, st);
    assert [Assignment(st.currName, first)] + [second] == [Assignment(st.currName, first), second];
    assert ts[0..] == ts;
  }

  // ---------------------------------------------------------------------------
  // let

  /** What a `let` statement turns into once its targets are read. */
  datatype LetPlan =
    | LetAwait(names: seq<string>, call: seq<Token>)
    | LetFunction(name: string, header: seq<Token>)
    | LetExpression(name: string, expr: seq<Token>)

  /** The single target of a non-await `let` (`names[0]`, undefined and so no
      assignment when there is none). */
  function FirstName(names: seq<string>): string {
    if names == [] then "" else names[0]
  }

  /** parseLet's decisions, before any code is emitted. */
  function LetStatement(ts: seq<Token>): (r: Result<LetPlan>)
    requires ts != []
  {
    if |ts| < 3 then Err(ErrorAt(ts[|ts| - 1], "Unexpected end of input"))
    else match MultiArgument(ts)
      case Err(f) => Err(f)
      case Ok(tg) =>
        var names, rest := tg.names, tg.next;
        if rest == [] then Err(ErrorAt(ts[|ts| - 1], "Unexpected end of input"))
        else if rest[0].kind == Keyword then
          if rest[0].text == "await" then
            if |rest| < 2 then Err(ErrorAt(rest[0], "Unexpected end of input"))
            else Ok(LetAwait(names, rest[1..]))
          else if rest[0].text == "function" then
            if |rest| < 2 then Err(ErrorAt(rest[0], "Unexpected end of input"))
            else if |names| > 1 then Err(ErrorAt(rest[0], "Not support tuple assignment"))
            else Ok(LetFunction(FirstName(names), rest[1..]))
          else Err(ErrorAt(rest[0], ""))
        else if |names| > 1 then Err(ErrorAt(rest[0], "Not support tuple assignment"))
        else Ok(LetExpression(FirstName(names), rest))
  }

  /** What a let hands on to await or function is shorter than the statement. */
  lemma LetOperandShorter(ts: seq<Token>)
    requires ts != [] && LetStatement(ts).Ok?
    ensures LetStatement(ts).value.LetAwait? ==> |LetStatement(ts).value.call| < |ts|
    ensures LetStatement(ts).value.LetFunction? ==> |LetStatement(ts).value.header| < |ts|
  {
    ArgumentsFromSuffix(ts, 0, 0, []);
  }

  /** Several targets are accepted only before `await`. */
  lemma TupleNeedsAwait(ts: seq<Token>)
    requires ts != [] && LetStatement(ts).Ok? && !LetStatement(ts).value.LetAwait?
    ensures MultiArgument(ts).Ok? && |MultiArgument(ts).value.names| <= 1
  {
  }

  /** `let s0, …, sn = await call`: every target is passed to the await, in order;
      `let s0, …, sn = e` with more than one target and no await is refused. */
  lemma LetTargets(segs: seq<seq<Token>>, seps: seq<Token>, eq: Token, rest: seq<Token>)
    requires |segs| == |seps| + 1
    requires forall k :: 0 <= k < |segs| ==> PlainSegment(segs[k])
    requires forall k :: 0 <= k < |seps| ==> IsSymbol(seps[k], ",")
    requires IsSymbol(eq, "=") && |rest| >= 2
    ensures var ts := Listed(segs, seps) + [eq] + rest;
      |ts| >= 3
      && (IsKeywordToken(rest[0], "await") ==> LetStatement(ts) == Ok(LetAwait(SegmentTexts(segs), rest[1..])))
      && (rest[0].kind != Keyword && |segs| > 1 ==> LetStatement(ts) == Err(ErrorAt(rest[0], "Not support tuple assignment")))
  {
    MultiArgumentListed(segs, seps, eq, rest);
  }

  // ---------------------------------------------------------------------------
  // await

  /** The call an await opens, up to where the callback goes: `f(a, b)` becomes
      `f(a, b, `, `f()` becomes `f(` and a bare `f` becomes `f(`.  A single number is an
      error, as is anything that does not start with an identifier. */
  function AwaitCall(ts: seq<Token>): (r: Result<string>)
    ensures ts != [] && ts[0].kind != Identifier ==> r.Err?
    ensures ts != [] && ts[0].kind == Identifier && !IsSymbol(ts[|ts| - 1], ")") ==> r == Ok(Texts(ts) + "(")
  {
    if ts == [] then Err(Crash)
    else if |ts| == 1 && ts[0].kind == Number then Err(ErrorAt(ts[0], ""))
    else if ts[0].kind != Identifier then Err(ErrorAt(ts[0], ""))
    else if IsSymbol(ts[|ts| - 1], ")") then
      Ok(Texts(ts[..|ts| - 1]) + (if |ts| >= 2 && IsSymbol(ts[|ts| - 2], "(") then "" else ", "))
    else Ok(Texts(ts) + "(")
  }

  /** The lines that open an await's callback: the i-th target gets the i-th
      parameter. */
  function AwaitBindings(names: seq<string>): (r: seq<string>)
    ensures |r| == |names| && forall k :: 0 <= k < |names| ==> r[k] == names[k] + " = " + ArgSlot(k) + ";"
  {
    seq(|names|, k requires 0 <= k < |names| => names[k] + " = " + ArgSlot(k) + ";")
  }

  /** The callback of an await receives one parameter per target. */
  function AwaitHeader(call: string, n: nat): string {
    call + "function (" + Join(ArgSlots(n), ", ") + ") {"
  }

  /** With arguments, the callback is passed after them. */
  lemma AwaitWithArguments(ts: seq<Token>)
    requires |ts| >= 3 && ts[0].kind == Identifier && IsSymbol(ts[1], "(") && IsSymbol(ts[|ts| - 1], ")")
    requires !IsSymbol(ts[|ts| - 2], "(")
    ensures AwaitCall(ts) == Ok(ts[0].text + "(" + Texts(ts[2..|ts| - 1]) + ", ")
  {
    var u := ts[..|ts| - 1];
    assert u[1..][1..] == ts[2..|ts| - 1];
    assert Texts(u) == ts[0].text + Texts(u[1..]);
    assert Texts(u[1..]) == "(" + Texts(u[1..][1..]);
    assert Texts(u) == ts[0].text + "(" + Texts(ts[2..|ts| - 1]);
    assert AwaitCall(ts) == Ok(Texts(u) + ", ");
  }

  // ---------------------------------------------------------------------------
  // defer

  /** The deferred action for a one-line defer: `call` is the statement to run. */
  function DeferAction(call: string): string {
    "function (error, $$_callback) {\n" + "      " + call + "\n      return $$_callback(null);" + "\n    }"
  }

  /** The deferred action for a defer block. */
  function DeferBlock(code: seq<string>): string {
    "function (error, $$_callback) {\n" + Join(code, "\n") + "\n    }"
  }

  /** parseDefer without a block: `defer f(…)` and `defer f` become one action; a
      block is `None` here. */
  function DeferLine(ts: seq<Token>): (r: Result<Option<string>>)
    requires ts != []
    ensures r.Ok? && r.value.Some? ==> ts[|ts| - 1].kind == Identifier || IsSymbol(ts[|ts| - 1], ")")
    ensures r.Ok? && r.value.None? <==> ts == [ts[0]] && IsSymbol(ts[0], "{")
  {
    var lastT := ts[|ts| - 1];
    if lastT.kind == Symbol then
      if lastT.text == ")" && |ts| >= 3 then Ok(Some(DeferAction(Texts(ts) + ";")))
      else if lastT.text == "{" && |ts| == 1 then Ok(None)
      else Err(ErrorAt(lastT, ""))
    else if lastT.kind == Identifier then Ok(Some(DeferAction(Texts(ts) + "();")))
    else Err(ErrorAt(lastT, ""))
  }

  // ---------------------------------------------------------------------------
  // function

  /** parseFunction's parameter list: nothing before `{`, or `( a, b, … )` with
      identifiers and commas alternating, starting with an identifier. */
  function ParamsFrom(ts: seq<Token>, isComma: bool): Result<seq<string>>
    decreases |ts|
  {
    if ts == [] then Ok([])
    else if isComma && ts[0].kind == Identifier then
      match ParamsFrom(ts[1..], false)
      case Ok(ns) => Ok([ts[0].text] + ns)
      case Err(f) => Err(f)
    else if !isComma && IsSymbol(ts[0], ",") then ParamsFrom(ts[1..], true)
    else Err(ErrorAt(ts[0], ""))
  }

  function FunctionParams(ts: seq<Token>): (r: Result<seq<string>>)
    ensures r.Ok? ==> ts != [] && IsSymbol(ts[|ts| - 1], "{")
  {
    if ts == [] then Err(Crash)
    else if !IsSymbol(ts[|ts| - 1], "{") then Err(ErrorAt(ts[|ts| - 1], ""))
    else if |ts| == 1 then Ok([])
    else
      var argTokens := ts[..|ts| - 1];
      if !IsSymbol(argTokens[0], "(") then Err(ErrorAt(argTokens[0], ""))
      else if !IsSymbol(argTokens[|argTokens| - 1], ")") then Err(ErrorAt(argTokens[0], ""))
      else ParamsFrom(argTokens[1..|argTokens| - 1], true)
  }

  /** Parameters alternate with commas; each parameter is an identifier and they are
      kept in order. */
  lemma {:induction false} ParamsAlternate(ts: seq<Token>, isComma: bool)
    requires ParamsFrom(ts, isComma).Ok?
    ensures forall k :: 0 <= k < |ts| ==>
      if (k % 2 == 0) == isComma then ts[k].kind == Identifier else IsSymbol(ts[k], ",")
    ensures ParamsFrom(ts, isComma).value == IdentifierTexts(ts)
    decreases |ts|
  {
    if ts != [] {
      ParamsAlternate(ts[1..], !isComma);
      forall k | 1 <= k < |ts|
        ensures if (k % 2 == 0) == isComma then ts[k].kind == Identifier else IsSymbol(ts[k], ",")
      {
        assert ts[k] == ts[1..][k - 1];
        assert ((k - 1) % 2 == 0) == ((k % 2 == 0) == false);
      }
    }
  }

  // ---------------------------------------------------------------------------
  // Brace bodies

  datatype BodySplit = BodySplit(body: seq<Token>, next: seq<Token>)

  /** The brace count after one line (blank tokens removed), and whether a
      `} … {` line has been seen; only the non-if scan records that. */
  function BraceStep(l: seq<Token>, isIf: bool, brace: int, contains: bool): (int, bool) {
    if l == [] then (brace, contains)
    else
      var firstClose := IsSymbol(l[0], "}");
      var lastOpen := IsSymbol(l[|l| - 1], "{");
      if isIf then
        (if firstClose then brace - 1 else if lastOpen then brace + 1 else brace, contains)
      else
        ((if firstClose then brace - 1 else brace) + (if lastOpen then 1 else 0),
         if contains then contains else firstClose && lastOpen)
  }

  /** The end of parseBraceBody: with a `} … {` line seen, a trailing `}` is dropped. */
  function BodyEnd(body: seq<Token>, contains: bool, next: seq<Token>): (r: BodySplit)
    ensures r.next == next && r.body <= body && |body| <= |r.body| + 1
  {
    if contains && body != [] && IsSymbol(body[|body| - 1], "}") then BodySplit(body[..|body| - 1], next)
    else BodySplit(body, next)
  }

  /** parseBraceBody's loop: whole lines (blank tokens kept) go into the body until a
      line drives the count below zero; that line's non-blank tokens after its first
      are put back in front of the rest. */
  function BraceBodyFrom(ts: seq<Token>, isIf: bool, brace: int, body: seq<Token>, contains: bool): (r: BodySplit)
    ensures |r.body| + |r.next| <= |body| + |ts|
    decreases |ts|
  {
    if ts == [] then BodyEnd(body, contains, [])
    else
      var n := LineLength(ts);
      var l := NonBlank(ts[..n]);
      var step := BraceStep(l, isIf, brace, contains);
      if step.0 < 0 then BodyEnd(body, step.1, (if |l| > 1 then l[1..] else []) + ts[n..])
      else BraceBodyFrom(ts[n..], isIf, step.0, body + ts[..n], step.1)
  }

  function BraceBody(ts: seq<Token>, isIf: bool): BodySplit {
    BraceBodyFrom(ts, isIf, 0, [], false)
  }

  /** The body is a prefix of what was collected followed by the scanned tokens. */
  lemma {:induction false} BraceBodyPrefix(ts: seq<Token>, isIf: bool, brace: int, body: seq<Token>, contains: bool)
    ensures BraceBodyFrom(ts, isIf, brace, body, contains).body <= body + ts
    decreases |ts|
  {
    if ts != [] {
      var n := LineLength(ts);
      var step := BraceStep(NonBlank(ts[..n]), isIf, brace, contains);
      assert body + ts == (body + ts[..n]) + ts[n..] by {
        assert ts == ts[..n] + ts[n..];
      }
      if step.0 >= 0 {
        BraceBodyPrefix(ts[n..], isIf, step.0, body + ts[..n], step.1);
      }
    }
  }

  /** Without a line that closes the block everything is body, and nothing is left. */
  lemma {:induction false} BraceBodyUnclosed(ts: seq<Token>, isIf: bool, brace: int, body: seq<Token>, contains: bool)
    requires brace >= 0
    requires forall k :: 0 <= k < |ts| ==> !IsSymbol(ts[k], "}")
    ensures BraceBodyFrom(ts, isIf, brace, body, contains) == BodyEnd(body + ts, BraceBodyFrom(ts, isIf, brace, body, contains).body != body + ts, [])
    ensures BraceBodyFrom(ts, isIf, brace, body, contains).next == []
    decreases |ts|
  {
    if ts == [] {
      assert body + ts == body;
    } else {
      var n := LineLength(ts);
      var l := NonBlank(ts[..n]);
      NonBlankFrom(ts[..n]);
      assert l != [] ==> !IsSymbol(l[0], "}") by {
        if l != [] {
          var k :| 0 <= k < n && ts[..n][k] == l[0];
        }
      }
      var step := BraceStep(l, isIf, brace, contains);
      assert step.0 >= 0;
      assert body + ts == (body + ts[..n]) + ts[n..] by {
        assert ts == ts[..n] + ts[n..];
      }
      BraceBodyUnclosed(ts[n..], isIf, step.0, body + ts[..n], step.1);
    }
  }

  /** A line that starts with `}` at depth zero ends the block there; the rest of
      that line, without blanks, goes back in front of what follows. */
  lemma BraceBodyCloses(ts: seq<Token>, isIf: bool, body: seq<Token>, contains: bool)
    requires ts != [] && NonBlank(ts[..LineLength(ts)]) != [] && IsSymbol(NonBlank(ts[..LineLength(ts)])[0], "}")
    requires isIf || !IsSymbol(NonBlank(ts[..LineLength(ts)])[|NonBlank(ts[..LineLength(ts)])| - 1], "{")
    ensures var n := LineLength(ts); var l := NonBlank(ts[..n]);
      BraceBodyFrom(ts, isIf, 0, body, contains).next == l[1..] + ts[n..]
      && BraceBodyFrom(ts, isIf, 0, body, contains).body <= body
  {
    var n := LineLength(ts);
    var l := NonBlank(ts[..n]);
    if |l| == 1 {
      assert l[1..] == [];
    }
  }

  // ---------------------------------------------------------------------------
  // The return token

  /** addReturnTokenToEnd: a `return` keyword token on the line after the last
      token (line -1 for an empty list), flagged nested or not. */
  function AddReturn(ts: seq<Token>, nested: bool): (r: seq<Token>)
    ensures |r| == |ts| + 1 && r[..|ts|] == ts && IsKeywordToken(r[|ts|], "return") && r[|ts|].nested == nested
    ensures ts != [] ==> r[|ts|].line != ts[|ts| - 1].line
  {
    var line := if ts == [] then -1 else ts[|ts| - 1].line + 1;
    ts + [Token(Keyword, line, 0, "return", nested)]
  }

  /** The return token is a line of its own: splitting off lines never joins it to
      the body's last line. */
  lemma ReturnOwnLine(ts: seq<Token>, nested: bool)
    requires ts != []
    ensures var r := AddReturn(ts, nested); LineLength(r) <= |ts|
  {
    var r := AddReturn(ts, nested);
    assert r[|ts| - 1] == ts[|ts| - 1];
    assert r[|ts|].line != r[|ts| - 1].line;
  }

  // ---------------------------------------------------------------------------
  // Block statements

  /** The callback a block becomes, in parseIf's parseBody. */
  function IfBranch(code: seq<string>, indent: int): string {
    "function ($$_callback) {\n" + Join(code, "\n") + "\n" + Indentation(indent) + "}"
  }

  /** The call parseIf emits: conditions and branches alternate, then the code after
      the statement becomes the continuation. */
  function IfCode(parts: seq<string>, next: seq<string>, indent: int): string {
    "$$_runtime.ifCondition(" + Join(parts, ", ") + ", function () {\n" + Join(next, "\n") + "\n" + Indentation(indent) + "});"
  }

  /** The loop parseFor emits for `for key in obj {`. */
  function ForEachCode(obj: string, key: string, body: seq<string>, next: seq<string>, indent: int): string {
    var ind := Indentation(indent);
    "$$_runtime.forEachLoop(" + obj + ", function (" + key + ", $$_continue, $$_break) {\n"
    + ind + "  var $$_callback = $$_continue;\n"
    + Join(body, "\n") + "\n"
    + ind + "}, function () {\n"
    + Join(next, "\n") + "\n"
    + ind + "});"
  }

  /** The loop parseFor emits for `for cond {` and `for {`. */
  function ConditionLoopCode(cond: string, body: seq<string>, next: seq<string>, indent: int): string {
    var ind := Indentation(indent);
    "$$_runtime.conditionLoop(function () {\n"
    + ind + "  return " + cond + ";\n"
    + ind + "}, function ($$_continue, $$_break) {\n"
    + ind + "  var $$_callback = $$_continue;\n"
    + Join(body, "\n") + "\n"
    + ind + "}, function () {\n"
    + Join(next, "\n") + "\n"
    + ind + "});"
  }

  /** The loop condition: `true` for a bare `for {`, otherwise the parenthesised
      condition. */
  function ForCondition(ts: seq<Token>): (r: Result<string>)
    ensures ts == [] ==> r == Err(Crash)
    ensures r.Ok? ==> IsSymbol(ts[|ts| - 1], "{")
  {
    if |ts| == 1 && IsSymbol(ts[0], "{") then Ok("true")
    else if ts == [] then Err(Crash)
    else if !IsSymbol(ts[|ts| - 1], "{") then Err(ErrorAt(ts[|ts| - 1], ""))
    else Ok("(" + CondText(ts[..|ts| - 1]) + ")")
  }

  /** `for key in obj {`: the form parseFor recognises by its second token. */
  predicate IsForEach(ts: seq<Token>) {
    |ts| >= 3 && IsKeywordToken(ts[1], "in")
  }

  /** The object of a for-each loop: the texts between `in` and the last token. */
  function ForEachObject(ts: seq<Token>): string
    requires IsForEach(ts)
  {
    Texts(ts[2..|ts| - 1])
  }

  /** What a function statement emits around its wrapped body. */
  function FunctionLine(name: string, body: string): (s: string)
    ensures name != "" ==> name + " = " <= s
  {
    (if name != "" then name + " = " else "") + body + ";"
  }

  /** parseJavascript: every line of the block, names spaced, untrimmed. */
  function JavascriptLines(body: seq<Token>): (r: seq<string>)
    ensures |r| == |Lines(body)|
    ensures forall k :: 0 <= k < |r| ==> r[k] == Spaced(Lines(body)[k], false)
    decreases |body|
  {
    if body == [] then [] else [Spaced(body[..LineLength(body)], false)] + JavascriptLines(body[LineLength(body)..])
  }

  // ---------------------------------------------------------------------------
  // wrap

  /** The declaration of the statement's variables, when there are any. */
  function VarsCode(vars: seq<string>): (s: string)
    ensures vars == [] <==> s == ""
  {
    if vars == [] then "" else "    var " + Join(vars, ", ") + ";\n"
  }

  /** The lines before and after the deferred actions in wrap's defer block. */
  const DeferHead: seq<string> := ["\n    /* defer function start */", "    var $$_defers = [];"]
  const DeferTail: seq<string> :=
    ["    var $$_oldCallback = $$_callback;",
     "    $$_callback = $$_callback_global = function () {",
     "      var $$_args = arguments;",
     "      $$_runtime.runDefers($$_defers, $$_args[0], function (err) {",
     "        if (err) $$_runtime.error(err.stack);",
     "        $$_oldCallback.apply(null, $$_args);",
     "      });",
     "    };",
     "    /* defer function end */\n"]

  /** The statement that registers one deferred action. */
  function DeferPush(fn: string): string {
    "    $$_defers.push(" + fn + ");"
  }

  /** The lines that install the deferred actions: one registration per action, in
      the order the defer statements appeared. */
  function DeferLines(defers: seq<string>): (r: seq<string>)
    ensures |r| == |defers| + |DeferHead| + |DeferTail|
    ensures r[..|DeferHead|] == DeferHead && r[|DeferHead| + |defers|..] == DeferTail
    ensures forall i :: 0 <= i < |defers| ==> r[|DeferHead| + i] == DeferPush(defers[i])
  {
    DeferHead + seq(|defers|, i requires 0 <= i < |defers| => DeferPush(defers[i])) + DeferTail
  }

  function DefersCode(defers: seq<string>): (s: string)
    ensures defers == [] <==> s == ""
  {
    if defers == [] then "" else Join(DeferLines(defers), "\n") + "\n"
  }

  /** The indentation wrap uses: the context's, less four spaces. */
  function WrapIndent(indent: int): string {
    var s := Indentation(indent);
    if |s| <= 4 then "" else s[4..]
  }

  /** The compiled function, piece by piece: the parameter list, the header that
      takes the callback from the last argument, the body inside a `try` whose
      `catch` hands the error to the callback. */
  const WrapOpen: Pieces :=
    Then(Text("(function ("),
    Then(Params,
    Then(Text(") {\n"),
    End)))

  const WrapHeader: Pieces :=
    Then(Indent, Then(Text("  \"use strict\";\n\n"),
    Then(Indent, Then(Text("  /* function header start */\n"),
    Then(Indent, Then(Text("  var $$_callback, $arguments;\n"),
    Then(Indent, Then(Text("  if (arguments.length < 1 || typeof(arguments[arguments.length - 1]) !== \"function\") {\n"),
    Then(Indent, Then(Text("    throw new Error(\"Need a callback parameter.\");\n"),
    Then(Indent, Then(Text("  } else {\n"),
    Then(Indent, Then(Text("    $arguments = $$_runtime.parseArguments(arguments);\n"),
    Then(Indent, Then(Text("    $$_callback = $arguments.callback;\n"),
    Then(Indent, Then(Text("    $arguments = $arguments.arguments;\n"),
    Then(Indent, Then(Text("  }\n"),
    Then(Indent, Then(Text("  var $$_callback_global = $$_callback;\n"),
    Then(Indent, Then(Text("  /* function header end */\n\n"),
    Then(Indent, Then(Text("  try {\n"),
    End))))))))))))))))))))))))))

  const WrapMain: Pieces :=
    Then(Declarations,
    Then(Deferred,
    Then(Body,
    Then(Text("\n"),
    End))))

  const WrapClose: Pieces :=
    Then(Indent, Then(Text("  } catch (err) {\n"),
    Then(Indent, Then(Text("    return $$_callback_global(err);\n"),
    Then(Indent, Then(Text("  }\n"),
    Then(Indent, Then(Text("})"),
    End))))))))

  /** syntax.wrap: the compiled function. */
  function Wrap(args: seq<string>, vars: seq<string>, defers: seq<string>, code: seq<string>, indent: int): string {
    WrapWith(WrapUnit(args, vars, defers, code, WrapIndent(indent)))
  }

  /** The template of wrap, filled. */
  function WrapWith(u: Unit): string {
    Fill(WrapOpen, u) + Fill(WrapHeader, u) + Fill(WrapMain, u) + Fill(WrapClose, u)
  }

  /** What wrap fills its template with: the declaration and the deferred-action
      block appear, each indented, only when there is something to declare or defer. */
  function WrapUnit(args: seq<string>, vars: seq<string>, defers: seq<string>, code: seq<string>, ind: string): (u: Unit)
    ensures u.params == args && u.code == code && u.ind == ind
    ensures vars == [] <==> u.declarations == ""
    ensures defers == [] <==> u.deferred == ""
  {
    Unit(args, if vars == [] then "" else ind + VarsCode(vars), if defers == [] then "" else ind + DefersCode(defers), code, ind)
  }

  /** The filled template starts with the parameter list, and the code lines come
      right after the declarations and the deferred actions. */
  lemma WrapWithShape(u: Unit)
    ensures "(function (" + Join(u.params, ", ") + ") {\n" <= WrapWith(u)
    ensures WrapWith(u) == Fill(WrapOpen, u) + Fill(WrapHeader, u)
                           + u.declarations + u.deferred + Join(u.code, "\n") + "\n" + Fill(WrapClose, u)
  {
    assert Fill(WrapOpen.tail.tail, u) == ") {\n";
    assert Fill(WrapOpen, u) == "(function (" + Join(u.params, ", ") + ") {\n";
    assert WrapWith(u) == Fill(WrapOpen, u) + (Fill(WrapHeader, u) + Fill(WrapMain, u) + Fill(WrapClose, u));
    assert Fill(WrapMain.tail.tail.tail, u) == "\n";
    assert Fill(WrapMain.tail, u) == u.deferred + Join(u.code, "\n") + "\n";
  }

  // ---------------------------------------------------------------------------
  // Statement dispatch

  /** The statement keywords that need at least one token after them. */
  predicate NeedsOperand(kw: string) {
    kw in ["argument", "var", "let", "await", "sleep", "function", "defer", "if", "for", "javascript"]
  }

  /** The keywords syntax.parse knows how to start a statement with. */
  predicate StatementKeyword(kw: string) {
    NeedsOperand(kw) || kw in ["return", "break", "continue", "throw"]
  }

  /** Statements that syntax.parse brackets with START and END line markers: all
      but argument, var and defer. */
  predicate Marked(t: Token) {
    t.kind != Keyword || !(t.text in ["argument", "var", "defer"])
  }

  /** How syntax.parse refuses a line before handing it to a handler: an unknown
      keyword is an unexpected token, and a keyword that needs an operand and has
      none is an unexpected end of input. */
  function StatementRefusal(line: seq<Token>): (r: Option<Failure>)
    requires line != []
    ensures r.Some? ==> line[0].kind == Keyword
    ensures r == None <==>
      (line[0].kind != Keyword || (StatementKeyword(line[0].text) && (|line| >= 2 || !NeedsOperand(line[0].text))))
  {
    var t := line[0];
    if t.kind != Keyword then None
    else if !StatementKeyword(t.text) then Some(ErrorAt(t, ""))
    else if NeedsOperand(t.text) && |line| < 2 then Some(ErrorAt(t, "Unexpected end of input"))
    else None
  }

  /** parseSleep's terminating `;`, one column past the end of the last token. */
  function SleepEnd(last: Token): (t: Token)
    ensures IsSymbol(t, ";") && t.line == last.line
  {
    NewToken(Symbol, last.line, last.column + |last.text| + 1, ";")
  }

  /** The callback a sleep opens. */
  const SleepLine := "$$_runtime.sleep($$_sleep_ms, function ($$_err) {"

  /** The statement that closes an await's or a sleep's callback. */
  const CallbackClose := "});"
}
