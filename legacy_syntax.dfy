/** The rules of the older statement parser (lib/compiler/syntax.js) that depend
    only on token lists: the closing `return`, the block scan of parseNested, the
    targets of let, the values of return, the operands of require, expressions and
    await, the deferred actions and the compiled function's template.  readLine,
    parseCondition, the argument list rule and the if and for code are the same as
    the current compiler's and are taken from SyntaxCommon and BrightRules. */
module LegacyRules {
  import opened Tokens
  import opened SyntaxCommon
  import opened Template

  // ---------------------------------------------------------------------------
  // throwWordError

  /** The failure throwWordError raises.  Its `err.token = w` reads a variable that
      does not exist, so as written every call ends in a host ReferenceError instead
      of the syntax error it builds; as intended it raises that error. */
  function Thrown(v: Version, f: Failure): (g: Failure)
    ensures v == AsWritten ==> g == Crash
    ensures v == Intended ==> g == f
  {
    if v == AsWritten then Crash else f
  }

  /** The outcome of a rule's result when its errors are raised by throwWordError. */
  function Raised<T>(v: Version, r: Result<T>): (o: Outcome)
    ensures o.Pass? <==> r.Ok?
    ensures o.Fail? ==> o.failure == Thrown(v, r.failure)
  {
    match r
    case Ok(_) => Pass
    case Err(f) => Fail(Thrown(v, f))
  }

  // ---------------------------------------------------------------------------
  // addReturnAtEnd

  /** addReturnAtEnd: a `return` keyword at column 0 of the line after the last
      token; an empty list stays empty. */
  function WithReturn(ts: seq<Token>): (r: seq<Token>)
    ensures ts == [] ==> r == []
    ensures ts != [] ==> |r| == |ts| + 1 && r[..|ts|] == ts && IsKeywordToken(r[|ts|], "return")
    ensures ts != [] ==> r[|ts|].line == ts[|ts| - 1].line + 1 && r[|ts|].column == 0
  {
    if ts == [] then [] else ts + [NewToken(Keyword, ts[|ts| - 1].line + 1, 0, "return")]
  }

  /** The end of the first line searched from `i` is `n` when the tokens before `n`
      share the first token's line and the one at `n` (if any) does not. */
  lemma {:induction false} LineEndAt(ts: seq<Token>, i: nat, n: nat)
    requires 1 <= i <= n <= |ts|
    requires forall k :: 0 <= k < n ==> ts[k].line == ts[0].line
    requires n < |ts| ==> ts[n].line != ts[0].line
    ensures LineEnd(ts, i) == n
    decreases n - i
  {
    if i < n {
      LineEndAt(ts, i + 1, n);
    }
  }

  /** A run of tokens on one line followed by tokens starting on another line: the
      run is the first line. */
  lemma {:induction false} FirstLineOf(l: seq<Token>, rest: seq<Token>)
    requires l != [] && forall k :: 0 <= k < |l| ==> l[k].line == l[0].line
    requires rest != [] ==> rest[0].line != l[0].line
    ensures LineLength(l + rest) == |l|
  {
    var ts := l + rest;
    LineEndAt(ts, 1, |l|);
  }

  /** A run of tokens on one line in front of a list starting on another line adds
      that run as a line of its own. */
  lemma LinesCons(l: seq<Token>, rest: seq<Token>)
    requires l != [] && forall k :: 0 <= k < |l| ==> l[k].line == l[0].line
    requires rest != [] ==> rest[0].line != l[0].line
    ensures Lines(l + rest) == [l] + Lines(rest)
  {
    FirstLineOf(l, rest);
    var ts := l + rest;
    assert ts[..|l|] == l && ts[|l|..] == rest;
  }

  /** A token on a line of its own after the list becomes one more line. */
  lemma {:induction false} LinesSnoc(ts: seq<Token>, x: Token)
    requires ts != [] && x.line != ts[|ts| - 1].line
    ensures Lines(ts + [x]) == Lines(ts) + [[x]]
    decreases |ts|
  {
    var n := LineLength(ts);
    var l, rest := ts[..n], ts[n..];
    assert Lines(rest + [x]) == Lines(rest) + [[x]] by {
      if rest != [] {
        LinesSnoc(rest, x);
      } else {
        assert ts[|ts| - 1] == l[n - 1];
        assert rest + [x] == [x] + [];
        LinesCons([x], []);
      }
    }
    assert Lines(l + (rest + [x])) == [l] + Lines(rest + [x]) by {
      assert rest != [] ==> (rest + [x])[0] == rest[0];
      LinesCons(l, rest + [x]);
    }
    assert Lines(ts) == [l] + Lines(rest);
    SnocSplit(ts, n, x);
    SeqAssociative([l], Lines(rest), [[x]]);
  }

  lemma SnocSplit(ts: seq<Token>, n: nat, x: Token)
    requires n <= |ts|
    ensures ts + [x] == ts[..n] + (ts[n..] + [x])
  {
    assert ts == ts[..n] + ts[n..];
  }

  /** The added `return` is a line of its own, after all the lines of the list. */
  lemma {:induction false} ReturnIsLastLine(ts: seq<Token>)
    requires ts != []
    ensures Lines(WithReturn(ts)) == Lines(ts) + [[WithReturn(ts)[|ts|]]]
  {
    var r := WithReturn(ts);
    assert r == ts + [r[|ts|]];
    LinesSnoc(ts, r[|ts|]);
  }

  // ---------------------------------------------------------------------------
  // parseNested

  /** The tokens of a list of lines, in order. */
  function Flatten(ls: seq<seq<Token>>): seq<Token>
    decreases |ls|
  {
    if ls == [] then [] else ls[0] + Flatten(ls[1..])
  }

  /** Cutting a token list into its lines loses no token and adds none. */
  lemma {:induction false} FlattenLines(ts: seq<Token>)
    ensures Flatten(Lines(ts)) == ts
    decreases |ts|
  {
    if ts != [] {
      var n := LineLength(ts);
      var ls := Lines(ts);
      assert ls == [ts[..n]] + Lines(ts[n..]);
      assert ls[0] == ts[..n] && ls[1..] == Lines(ts[n..]);
      FlattenLines(ts[n..]);
      assert ts[..n] + ts[n..] == ts;
    }
  }

  /** The first `i + 1` lines are the first line and then `i` more. */
  lemma FlattenTake(ls: seq<seq<Token>>, i: nat)
    requires i < |ls|
    ensures Flatten(ls[..i + 1]) == ls[0] + Flatten(ls[1..][..i])
  {
    var t := ls[..i + 1];
    assert t[0] == ls[0] && t[1..] == ls[1..][..i];
  }

  /** What parseNested's scan returns: the block's tokens, the tokens after it, and
      whether a line closed the block (rather than the tokens running out). */
  datatype Block = Block(body: seq<Token>, next: seq<Token>, closed: bool)

  /** The brace count after a line.  A line starting with `}` closes one block; as
      written a line ending with `{` opens one only when it does not also start with
      `}`, so a `} else {` inside the block lowers the count; as intended such a line
      still ends the block at depth zero but otherwise keeps the count. */
  function NestStep(v: Version, l: seq<Token>, brace: int): int
    requires l != []
  {
    var close := IsSymbol(l[0], "}");
    var open := IsSymbol(l[|l| - 1], "{");
    if v == AsWritten then (if close then brace - 1 else if open then brace + 1 else brace)
    else
      var b := if close then brace - 1 else brace;
      if b >= 0 && open then b + 1 else b
  }

  /** What is left of the closing line once its leading `}` is dropped. */
  function AfterBrace(l: seq<Token>): seq<Token> {
    if |l| > 1 then l[1..] else []
  }

  predicate NonEmptyLines(ls: seq<seq<Token>>) {
    forall k :: 0 <= k < |ls| ==> ls[k] != []
  }

  /** Every line readLine cuts holds a token. */
  lemma {:induction false} LinesNonEmpty(ts: seq<Token>)
    ensures NonEmptyLines(Lines(ts))
    decreases |ts|
  {
    if ts != [] {
      var n := LineLength(ts);
      LinesNonEmpty(ts[n..]);
      assert Lines(ts) == [ts[..n]] + Lines(ts[n..]);
    }
  }

  /** parseNested's loop over the lines readLine cuts: whole lines go into the body
      until one takes the count below zero; that line's `}` is dropped and its other
      tokens go back in front of the rest. */
  function NestedLines(v: Version, ls: seq<seq<Token>>, brace: int): Block
    requires NonEmptyLines(ls)
    decreases |ls|
  {
    if ls == [] then Block([], [], false)
    else
      var b := NestStep(v, ls[0], brace);
      if b < 0 then Block([], AfterBrace(ls[0]) + Flatten(ls[1..]), true)
      else
        var r := NestedLines(v, ls[1..], b);
        r.(body := ls[0] + r.body)
  }

  /** parseNested's scan of a token list. */
  function Nested(v: Version, ts: seq<Token>): Block {
    LinesNonEmpty(ts);
    NestedLines(v, Lines(ts), 0)
  }

  /** The scan keeps tokens in order and adds none: the block and what follows are
      no longer than the lines scanned. */
  lemma {:induction false} NestedLinesSize(v: Version, ls: seq<seq<Token>>, brace: int)
    requires NonEmptyLines(ls)
    ensures var r := NestedLines(v, ls, brace); |r.body| + |r.next| <= |Flatten(ls)|
    decreases |ls|
  {
    if ls != [] && NestStep(v, ls[0], brace) >= 0 {
      NestedLinesSize(v, ls[1..], NestStep(v, ls[0], brace));
    }
  }

  /** An unclosed block is every line, with nothing left over. */
  lemma {:induction false} NestedLinesRunOut(v: Version, ls: seq<seq<Token>>, brace: int)
    requires NonEmptyLines(ls)
    ensures var r := NestedLines(v, ls, brace); !r.closed ==> r.body == Flatten(ls) && r.next == []
    decreases |ls|
  {
    if ls != [] && NestStep(v, ls[0], brace) >= 0 {
      NestedLinesRunOut(v, ls[1..], NestStep(v, ls[0], brace));
    }
  }

  /** A closed block is the lines before one that starts with `}`; the rest of that
      line and the lines after it are left over. */
  lemma {:induction false} NestedLinesCloses(v: Version, ls: seq<seq<Token>>, brace: int)
    requires NonEmptyLines(ls) && brace >= 0
    ensures var r := NestedLines(v, ls, brace);
      r.closed ==> exists i :: (0 <= i < |ls| && IsSymbol(ls[i][0], "}")
        && r.body == Flatten(ls[..i]) && r.next == AfterBrace(ls[i]) + Flatten(ls[i + 1..]))
    decreases |ls|
  {
    if ls != [] {
      var b := NestStep(v, ls[0], brace);
      var r := NestedLines(v, ls, brace);
      if b < 0 {
        assert ls[..0] == [] && ls[1..] == ls[0 + 1..];
      } else {
        var r' := NestedLines(v, ls[1..], b);
        NestedLinesCloses(v, ls[1..], b);
        if r.closed {
          var i :| 0 <= i < |ls[1..]| && IsSymbol(ls[1..][i][0], "}")
            && r'.body == Flatten(ls[1..][..i]) && r'.next == AfterBrace(ls[1..][i]) + Flatten(ls[1..][i + 1..]);
          FlattenTake(ls, i);
          assert ls[1..][i] == ls[i + 1] && ls[1..][i + 1..] == ls[i + 2..];
          assert 0 <= i + 1 < |ls| && IsSymbol(ls[i + 1][0], "}")
            && r.body == Flatten(ls[..i + 1]) && r.next == AfterBrace(ls[i + 1]) + Flatten(ls[i + 2..]);
        }
      }
    }
  }

  /** What a line does to the depth: one more for a trailing `{`, one less for a
      leading `}`. */
  function LineNet(l: seq<Token>): int
    requires l != []
  {
    (if IsSymbol(l[|l| - 1], "{") then 1 else 0) - (if IsSymbol(l[0], "}") then 1 else 0)
  }

  /** The depth a list of lines leaves. */
  function NetLines(ls: seq<seq<Token>>): int
    requires NonEmptyLines(ls)
    decreases |ls|
  {
    if ls == [] then 0 else LineNet(ls[0]) + NetLines(ls[1..])
  }

  lemma NetLinesTake(ls: seq<seq<Token>>, i: nat)
    requires NonEmptyLines(ls) && i < |ls|
    ensures NetLines(ls[..i + 1]) == LineNet(ls[0]) + NetLines(ls[1..][..i])
  {
    var t := ls[..i + 1];
    assert t[0] == ls[0] && t[1..] == ls[1..][..i];
  }

  /** As intended, a line that does not end the block changes the count by its net
      depth, and only a leading `}` at depth zero ends it. */
  lemma NestStepIntended(l: seq<Token>, brace: int)
    requires l != [] && brace >= 0
    ensures NestStep(Intended, l, brace) < 0 <==> brace == 0 && IsSymbol(l[0], "}")
    ensures NestStep(Intended, l, brace) >= 0 ==> NestStep(Intended, l, brace) == brace + LineNet(l)
  {
  }

  /** Starting at depth `brace`, the depth stays at zero or above over the first `i`
      lines. */
  predicate NeverBelowZero(ls: seq<seq<Token>>, brace: int, i: nat)
    requires NonEmptyLines(ls) && i <= |ls|
  {
    forall j :: 0 <= j <= i ==> brace + NetLines(ls[..j]) >= 0
  }

  lemma {:induction false} NeverBelowZeroCons(ls: seq<seq<Token>>, brace: int, i: nat)
    requires NonEmptyLines(ls) && i < |ls| && brace >= 0
    requires NeverBelowZero(ls[1..], brace + LineNet(ls[0]), i)
    ensures NeverBelowZero(ls, brace, i + 1)
  {
    forall j | 0 <= j <= i + 1 ensures brace + NetLines(ls[..j]) >= 0 {
      if j == 0 {
        assert ls[..0] == [];
      } else {
        NetLinesTake(ls, j - 1);
      }
    }
  }

  /** As intended, the block is balanced: the depth never falls below zero inside it,
      and its lines open exactly as many blocks as they close. */
  lemma {:induction false} NestedLinesBalanced(ls: seq<seq<Token>>, brace: int)
    requires NonEmptyLines(ls) && brace >= 0
    ensures var r := NestedLines(Intended, ls, brace);
      r.closed ==> exists i :: (0 <= i < |ls| && IsSymbol(ls[i][0], "}") && r.body == Flatten(ls[..i])
        && brace + NetLines(ls[..i]) == 0 && NeverBelowZero(ls, brace, i))
    decreases |ls|
  {
    if ls != [] {
      var b := NestStep(Intended, ls[0], brace);
      NestStepIntended(ls[0], brace);
      var r := NestedLines(Intended, ls, brace);
      if b < 0 {
        assert ls[..0] == [];
      } else {
        var r' := NestedLines(Intended, ls[1..], b);
        NestedLinesBalanced(ls[1..], b);
        if r.closed {
          var i :| 0 <= i < |ls[1..]| && IsSymbol(ls[1..][i][0], "}") && r'.body == Flatten(ls[1..][..i])
            && b + NetLines(ls[1..][..i]) == 0 && NeverBelowZero(ls[1..], b, i);
          FlattenTake(ls, i);
          NetLinesTake(ls, i);
          NeverBelowZeroCons(ls, brace, i);
          assert ls[1..][i] == ls[i + 1];
          assert 0 <= i + 1 < |ls| && IsSymbol(ls[i + 1][0], "}") && r.body == Flatten(ls[..i + 1])
            && brace + NetLines(ls[..i + 1]) == 0 && NeverBelowZero(ls, brace, i + 1);
        }
      }
    }
  }

  /** parseNested's scan of a token list: the block and what follows it come from
      the list's tokens, in order. */
  lemma NestedSize(v: Version, ts: seq<Token>)
    ensures |Nested(v, ts).body| + |Nested(v, ts).next| <= |ts|
  {
    LinesNonEmpty(ts);
    NestedLinesSize(v, Lines(ts), 0);
    FlattenLines(ts);
  }

  /** parseNested's scan of a token list when no line closes the block: the block is
      everything. */
  lemma NestedRunsOut(v: Version, ts: seq<Token>)
    ensures !Nested(v, ts).closed ==> Nested(v, ts).body == ts && Nested(v, ts).next == []
  {
    LinesNonEmpty(ts);
    NestedLinesRunOut(v, Lines(ts), 0);
    FlattenLines(ts);
  }

  /** parseNested's scan of a token list when a line closes the block: the block is
      the lines before one that starts with `}`, and the rest of that line and the
      lines after it are left over. */
  lemma NestedCloses(v: Version, ts: seq<Token>)
    ensures NonEmptyLines(Lines(ts))
    ensures Nested(v, ts).closed ==> exists i :: (0 <= i < |Lines(ts)| && IsSymbol(Lines(ts)[i][0], "}")
      && Nested(v, ts).body == Flatten(Lines(ts)[..i])
      && Nested(v, ts).next == AfterBrace(Lines(ts)[i]) + Flatten(Lines(ts)[i + 1..]))
  {
    LinesNonEmpty(ts);
    NestedLinesCloses(v, Lines(ts), 0);
  }

  /** As intended, a block that some line closes is balanced, line by line. */
  lemma NestedBalanced(ts: seq<Token>)
    ensures NonEmptyLines(Lines(ts))
    ensures Nested(Intended, ts).closed ==> exists i :: (0 <= i < |Lines(ts)| && IsSymbol(Lines(ts)[i][0], "}")
      && Nested(Intended, ts).body == Flatten(Lines(ts)[..i]) && NetLines(Lines(ts)[..i]) == 0
      && NeverBelowZero(Lines(ts), 0, i))
  {
    LinesNonEmpty(ts);
    NestedLinesBalanced(Lines(ts), 0);
  }

  /** A line that neither starts with `}` nor ends with `{`. */
  predicate PlainLine(l: seq<Token>) {
    l != [] && !IsSymbol(l[0], "}") && !IsSymbol(l[|l| - 1], "{")
  }

  /** One step of the scan over a line that does not end the block. */
  lemma NestedLinesCons(v: Version, l: seq<Token>, rest: seq<seq<Token>>, brace: int, b: int)
    requires l != [] && NonEmptyLines(rest) && b == NestStep(v, l, brace) && b >= 0
    ensures NonEmptyLines([l] + rest)
    ensures NestedLines(v, [l] + rest, brace) == NestedLines(v, rest, b).(body := l + NestedLines(v, rest, b).body)
  {
    assert ([l] + rest)[0] == l && ([l] + rest)[1..] == rest;
  }

  /** The scan over a line that ends the block. */
  lemma NestedLinesStop(v: Version, l: seq<Token>, rest: seq<seq<Token>>, brace: int)
    requires l != [] && NonEmptyLines(rest) && NestStep(v, l, brace) < 0
    ensures NonEmptyLines([l] + rest)
    ensures NestedLines(v, [l] + rest, brace) == Block([], AfterBrace(l) + Flatten(rest), true)
  {
    assert ([l] + rest)[0] == l && ([l] + rest)[1..] == rest;
  }

  /** A nested `if c { x } else { y }` followed by the `}` that closes the enclosing
      block.  As written the `} else {` line lowers the count, so the scan stops at
      the if's own closing `}`: the block leaves that `}` out, opens one more block
      than it closes, and the enclosing `}` is left over. */
  lemma ElseClosesEarly(l1: seq<Token>, l2: seq<Token>, l3: seq<Token>, l4: seq<Token>, c5: Token, c6: Token)
    requires l1 != [] && !IsSymbol(l1[0], "}") && IsSymbol(l1[|l1| - 1], "{")
    requires PlainLine(l2) && PlainLine(l4)
    requires l3 != [] && IsSymbol(l3[0], "}") && IsSymbol(l3[|l3| - 1], "{")
    requires IsSymbol(c5, "}") && IsSymbol(c6, "}")
    ensures NonEmptyLines([l1, l2, l3, l4, [c5], [c6]])
    ensures NestedLines(AsWritten, [l1, l2, l3, l4, [c5], [c6]], 0)
      == Block(l1 + l2 + l3 + l4, [c6], true)
    ensures NetLines([l1, l2, l3, l4]) == 1
  {
    var s6 := [[c6]];
    var s5 := [[c5]] + s6;
    var s4 := [l4] + s5;
    var s3 := [l3] + s4;
    var s2 := [l2] + s3;
    var s1 := [l1] + s2;
    assert s1 == [l1, l2, l3, l4, [c5], [c6]];
    assert Flatten(s6) == [c6] by {
      assert s6[1..] == [];
    }
    NestedLinesStop(AsWritten, [c5], s6, 0);
    NestedLinesCons(AsWritten, l4, s5, 0, 0);
    NestedLinesCons(AsWritten, l3, s4, 1, 0);
    NestedLinesCons(AsWritten, l2, s3, 1, 1);
    NestedLinesCons(AsWritten, l1, s2, 0, 1);
    assert NestedLines(AsWritten, s1, 0) == Block(l1 + (l2 + (l3 + (l4 + []))), [] + Flatten(s6), true);
    assert l1 + (l2 + (l3 + (l4 + []))) == l1 + l2 + l3 + l4;
    ElseNet(l1, l2, l3, l4);
  }

  /** The lines of the as-written block open one more block than they close. */
  lemma ElseNet(l1: seq<Token>, l2: seq<Token>, l3: seq<Token>, l4: seq<Token>)
    requires l1 != [] && !IsSymbol(l1[0], "}") && IsSymbol(l1[|l1| - 1], "{")
    requires PlainLine(l2) && PlainLine(l4)
    requires l3 != [] && IsSymbol(l3[0], "}") && IsSymbol(l3[|l3| - 1], "{")
    ensures NetLines([l1, l2, l3, l4]) == 1
  {
    var ns := [l1, l2, l3, l4];
    assert ns[1..] == [l2, l3, l4] && ns[1..][1..] == [l3, l4] && ns[1..][1..][1..] == [l4];
    assert ns[1..][1..][1..][1..] == [];
    assert NetLines(ns[1..][1..][1..]) == 0;
    assert NetLines(ns[1..][1..]) == 0;
    assert NetLines(ns[1..]) == 0;
  }

  /** The same lines as intended: `} else {` keeps the count, and the block runs to
      the enclosing `}`, which is all that is left of the list. */
  lemma ElseKeepsDepth(l1: seq<Token>, l2: seq<Token>, l3: seq<Token>, l4: seq<Token>, c5: Token, c6: Token)
    requires l1 != [] && !IsSymbol(l1[0], "}") && IsSymbol(l1[|l1| - 1], "{")
    requires PlainLine(l2) && PlainLine(l4)
    requires l3 != [] && IsSymbol(l3[0], "}") && IsSymbol(l3[|l3| - 1], "{")
    requires IsSymbol(c5, "}") && IsSymbol(c6, "}")
    ensures NonEmptyLines([l1, l2, l3, l4, [c5], [c6]])
    ensures NestedLines(Intended, [l1, l2, l3, l4, [c5], [c6]], 0)
      == Block(l1 + l2 + l3 + l4 + [c5], [], true)
  {
    var s6 := [[c6]];
    var s5 := [[c5]] + s6;
    var s4 := [l4] + s5;
    var s3 := [l3] + s4;
    var s2 := [l2] + s3;
    var s1 := [l1] + s2;
    assert s1 == [l1, l2, l3, l4, [c5], [c6]];
    assert NonEmptyLines([]);
    NestedLinesStop(Intended, [c6], [], 0);
    assert s6 == [[c6]] + [];
    NestedLinesCons(Intended, [c5], s6, 1, 0);
    NestedLinesCons(Intended, l4, s5, 1, 1);
    NestedLinesCons(Intended, l3, s4, 1, 1);
    NestedLinesCons(Intended, l2, s3, 1, 1);
    NestedLinesCons(Intended, l1, s2, 0, 1);
    assert l1 + (l2 + (l3 + (l4 + ([c5] + [])))) == l1 + l2 + l3 + l4 + [c5];
  }

  // ---------------------------------------------------------------------------
  // let

  /** The targets of a let statement and the tokens after its `=` (none when there
      was no `=`). */
  datatype LetHead = LetHead(names: seq<string>, rest: seq<Token>)

  /** parseLet's target loop from token `i`: identifiers, each followed by at most
      one comma, up to `=`; nothing may start with a comma or repeat one. */
  function LetTargets(ts: seq<Token>, i: nat, isComma: bool, names: seq<string>): (r: Result<LetHead>)
    requires i <= |ts|
    ensures r.Ok? ==> names <= r.value.names && |r.value.rest| <= |ts| - i
    decreases |ts| - i
  {
    if i == |ts| then Ok(LetHead(names, []))
    else
      var t := ts[i];
      if t.kind == Identifier then LetTargets(ts, i + 1, false, names + [t.text])
      else if !isComma && t.kind == Symbol then
        if t.text == "," then LetTargets(ts, i + 1, true, names)
        else if t.text == "=" then Ok(LetHead(names, ts[i + 1..]))
        else Err(ErrorAt(t, ""))
      else Err(ErrorAt(t, ""))
  }

  /** Names declared in turn: each is added unless it is already there. */
  function Declare(vars: seq<string>, names: seq<string>): seq<string>
    decreases |names|
  {
    if names == [] then vars
    else Declare(if names[0] in vars then vars else vars + [names[0]], names[1..])
  }

  predicate Distinct(s: seq<string>) {
    forall i, j :: 0 <= i < j < |s| ==> s[i] != s[j]
  }

  /** Declaring keeps what was declared, adds every name, adds nothing else, and
      adds no name twice. */
  lemma {:induction false} DeclareOnce(vars: seq<string>, names: seq<string>)
    ensures vars <= Declare(vars, names)
    ensures forall n :: n in Declare(vars, names) <==> n in vars || n in names
    ensures Distinct(vars) ==> Distinct(Declare(vars, names))
    decreases |names|
  {
    if names != [] {
      var next := if names[0] in vars then vars else vars + [names[0]];
      DeclareOnce(next, names[1..]);
      assert forall n :: n in names <==> n == names[0] || n in names[1..] by {
        assert names == [names[0]] + names[1..];
      }
      if Distinct(vars) && names[0] !in vars {
        assert Distinct(next) by {
          forall i, j | 0 <= i < j < |next| ensures next[i] != next[j] {
            if j == |vars| {
              assert next[i] == vars[i];
            }
          }
        }
      }
    }
  }

  /** Declaring one more name after a list is declaring the list, then the name. */
  lemma {:induction false} DeclareSnoc(vars: seq<string>, names: seq<string>, n: string)
    ensures Declare(vars, names + [n])
         == (if n in Declare(vars, names) then Declare(vars, names) else Declare(vars, names) + [n])
    decreases |names|
  {
    if names == [] {
      assert names + [n] == [n] && [n][1..] == [];
    } else {
      assert (names + [n])[0] == names[0] && (names + [n])[1..] == names[1..] + [n];
      DeclareSnoc(if names[0] in vars then vars else vars + [names[0]], names[1..], n);
    }
  }

  /** An identifier followed by its target list: the name is the first target. */
  lemma {:induction false} LetTargetsAppend(ts: seq<Token>, i: nat, isComma: bool, names: seq<string>)
    requires i < |ts| && ts[i].kind == Identifier
    ensures LetTargets(ts, i, isComma, names) == LetTargets(ts, i + 1, false, names + [ts[i].text])
  {
  }

  /** After a decision of parseLet's target loop the loop is where it was. */
  lemma LetTargetsSkip(ts: seq<Token>, i: nat, isComma: bool, names: seq<string>)
    requires i < |ts| && ts[i].kind != Identifier && !isComma && IsSymbol(ts[i], ",")
    ensures LetTargets(ts, i, isComma, names) == LetTargets(ts, i + 1, true, names)
  {
  }

  /** What parseLet does with the tokens after the `=`. */
  datatype LetForm =
    | LetAwait(name: string, call: seq<Token>)
    | LetRequire(name: string, operand: seq<Token>)
    | LetExpression(name: string, expr: seq<Token>)

  /** parseLet's decision: at least three tokens, the targets, something after the
      `=`; then `await` or `require` (each with something after it) or an
      expression, and more than one target only for `await`. */
  function LetStatement(ts: seq<Token>): (r: Result<LetForm>)
    ensures ts == [] ==> r == Err(Crash)
    ensures 0 < |ts| < 3 ==> r == Err(ErrorAt(ts[|ts| - 1], "Unexpected end of input"))
    ensures r.Ok? ==> LetTargets(ts, 0, true, []).Ok?
    ensures r.Ok? && |LetTargets(ts, 0, true, []).value.names| > 1 ==> r.value.LetAwait?
    ensures r.Ok? ==> r.value.name == Join(LetTargets(ts, 0, true, []).value.names, ", ")
  {
    if ts == [] then Err(Crash)
    else if |ts| < 3 then Err(ErrorAt(ts[|ts| - 1], "Unexpected end of input"))
    else match LetTargets(ts, 0, true, [])
      case Err(f) => Err(f)
      case Ok(LetHead(names, rest)) =>
        var name := Join(names, ", ");
        if rest == [] then Err(ErrorAt(ts[|ts| - 1], "Unexpected end of input"))
        else if rest[0].kind == Keyword then
          if rest[0].text == "await" then
            if |rest| < 2 then Err(ErrorAt(rest[0], "Unexpected end of input"))
            else Ok(LetAwait(name, rest[1..]))
          else if rest[0].text == "require" then
            if |names| > 1 then Err(ErrorAt(rest[0], "Not support tuple assignment"))
            else if |rest| < 2 then Err(ErrorAt(rest[0], "Unexpected end of input"))
            else Ok(LetRequire(name, rest[1..]))
          else Err(ErrorAt(rest[0], ""))
        else if |names| > 1 then Err(ErrorAt(rest[0], "Not support tuple assignment"))
        else Ok(LetExpression(name, rest))
  }

  /** The operand of a let is shorter than the statement by at least its target and
      its `=`. */
  lemma LetOperandShorter(ts: seq<Token>)
    requires LetStatement(ts).Ok?
    ensures match LetStatement(ts).value
      case LetAwait(_, call) => |call| + 3 <= |ts|
      case LetRequire(_, operand) => |operand| + 3 <= |ts|
      case LetExpression(_, expr) => |expr| + 2 <= |ts|
  {
    LetRestShorter(ts, 0, true, []);
  }

  lemma {:induction false} LetRestShorter(ts: seq<Token>, i: nat, isComma: bool, names: seq<string>)
    requires i <= |ts| && LetTargets(ts, i, isComma, names).Ok?
    requires isComma || names != []
    ensures LetTargets(ts, i, isComma, names).value.rest != [] ==>
      LetTargets(ts, i, isComma, names).value.names != [] && |LetTargets(ts, i, isComma, names).value.rest| + 2 <= |ts| - i + (if isComma then 0 else 1)
    decreases |ts| - i
  {
    if i < |ts| {
      var t := ts[i];
      if t.kind == Identifier {
        LetRestShorter(ts, i + 1, false, names + [t.text]);
      } else if !isComma && t.kind == Symbol && t.text == "," {
        LetRestShorter(ts, i + 1, true, names);
      }
    }
  }

  // ---------------------------------------------------------------------------
  // require, expressions, await

  /** The assignment prefix of a statement with a target. */
  function Target(name: string): string {
    if name != "" then name + " = " else ""
  }

  /** parseRequire: exactly one operand, an identifier or a string. */
  function RequireLine(name: string, ts: seq<Token>): (r: Result<string>)
    ensures ts == [] ==> r == Err(Crash)
    ensures r.Ok? <==> |ts| == 1 && (ts[0].kind == Identifier || ts[0].kind == Str)
    ensures r.Ok? ==> r.value == Target(name) + "require(" + ts[0].text + ");"
  {
    if ts == [] then Err(Crash)
    else if |ts| != 1 || !(ts[0].kind == Identifier || ts[0].kind == Str) then Err(ErrorAt(ts[0], ""))
    else Ok(Target(name) + "require(" + ts[0].text + ");")
  }

  /** The token kinds an expression may hold. */
  predicate Operand(t: Token) {
    t.kind == Identifier || t.kind == Number || t.kind == Str || t.kind == Symbol
  }

  /** parseExpression from token `i` on, all earlier tokens being operands: the
      first token of another kind is an error; otherwise the texts together, trimmed,
      as a statement. */
  function ExpressionFrom(name: string, ts: seq<Token>, i: nat): (r: Result<string>)
    requires i <= |ts|
    decreases |ts| - i
  {
    if i == |ts| then Ok(Target(name) + Trim(Texts(ts)) + ";")
    else if !Operand(ts[i]) then Err(ErrorAt(ts[i], ""))
    else ExpressionFrom(name, ts, i + 1)
  }

  function ExpressionCode(name: string, ts: seq<Token>): Result<string> {
    ExpressionFrom(name, ts, 0)
  }

  /** An expression is accepted exactly when every token is an operand. */
  lemma {:induction false} ExpressionAccepts(name: string, ts: seq<Token>, i: nat)
    requires i <= |ts|
    ensures ExpressionFrom(name, ts, i).Ok? <==> forall k :: i <= k < |ts| ==> Operand(ts[k])
    decreases |ts| - i
  {
    if i < |ts| {
      if Operand(ts[i]) {
        assert ExpressionFrom(name, ts, i) == ExpressionFrom(name, ts, i + 1);
        ExpressionAccepts(name, ts, i + 1);
      } else {
        assert ExpressionFrom(name, ts, i).Err?;
      }
    }
  }

  /** An accepted expression is the trimmed texts of all its tokens as a statement,
      assigned to the target when there is one. */
  lemma {:induction false} ExpressionText(name: string, ts: seq<Token>, i: nat)
    requires i <= |ts|
    ensures ExpressionFrom(name, ts, i).Ok? ==> ExpressionFrom(name, ts, i).value == Target(name) + Trim(Texts(ts)) + ";"
    decreases |ts| - i
  {
    if i < |ts| && Operand(ts[i]) {
      ExpressionText(name, ts, i + 1);
    }
  }

  /** A refused expression is refused at its first token that is not an operand. */
  lemma {:induction false} ExpressionFirstError(name: string, ts: seq<Token>, i: nat, k: nat)
    requires i <= k < |ts| && !Operand(ts[k]) && forall j :: i <= j < k ==> Operand(ts[j])
    ensures ExpressionFrom(name, ts, i) == Err(ErrorAt(ts[k], ""))
    decreases k - i
  {
    if i < k {
      ExpressionFirstError(name, ts, i + 1, k);
    }
  }

  /** The call parseAwait opens: `f(a, b, ` for a call with arguments, `f(` for
      `f()` and for a bare `f`, followed by the callback header. */
  function AwaitCall(ts: seq<Token>): (r: Result<string>)
    ensures ts == [] ==> r == Err(Crash)
    ensures ts != [] && ts[0].kind != Identifier ==> r == Err(ErrorAt(ts[0], ""))
  {
    if ts == [] then Err(Crash)
    else if ts[0].kind != Identifier then Err(ErrorAt(ts[0], ""))
    else if IsSymbol(ts[|ts| - 1], ")") then
      Ok(Texts(ts[..|ts| - 1]) + (if |ts| >= 2 && IsSymbol(ts[|ts| - 2], "(") then "" else ", "))
    else Ok(Texts(ts) + "(")
  }

  /** The callback parseAwait hands the call: the error, then the target list. */
  function AwaitHeader(call: string, name: string): string {
    call + "function ($$_err" + (if name != "" then ", " + name else "") + ") {"
  }

  /** The line that rethrows the callback's error. */
  const AwaitCheck := "if ($$_err) throw $$_err;"

  const CallbackClose := "});"

  /** The callback always ends the call: with arguments, the callback follows them
      after a comma; for `f()` and a bare `f` it is the only argument. */
  lemma AwaitCallShapes(ts: seq<Token>, name: string)
    requires AwaitCall(ts).Ok?
    ensures IsSymbol(ts[|ts| - 1], ")") && !(|ts| >= 2 && IsSymbol(ts[|ts| - 2], "(")) ==>
      AwaitHeader(AwaitCall(ts).value, name) == Texts(ts[..|ts| - 1]) + ", " + "function ($$_err" + (if name != "" then ", " + name else "") + ") {"
    ensures !IsSymbol(ts[|ts| - 1], ")") ==>
      AwaitHeader(AwaitCall(ts).value, name) == Texts(ts) + "(" + "function ($$_err" + (if name != "" then ", " + name else "") + ") {"
  {
  }

  // ---------------------------------------------------------------------------
  // return

  /** parseReturn's values: identifiers and numbers, each followed by at most one
      comma; a comma first or twice in a row is an error at it. */
  function ReturnValues(ts: seq<Token>, isComma: bool): Result<seq<string>>
    decreases |ts|
  {
    if ts == [] then Ok([])
    else if ts[0].kind == Identifier || ts[0].kind == Number then
      match ReturnValues(ts[1..], false)
      case Ok(vs) => Ok([ts[0].text] + vs)
      case Err(f) => Err(f)
    else if !isComma && IsSymbol(ts[0], ",") then ReturnValues(ts[1..], true)
    else Err(ErrorAt(ts[0], ""))
  }

  predicate IsValue(t: Token) { t.kind == Identifier || t.kind == Number }

  /** The values of a list, in order. */
  function ValueTexts(ts: seq<Token>): (r: seq<string>)
    decreases |ts|
  {
    if ts == [] then [] else (if IsValue(ts[0]) then [ts[0].text] else []) + ValueTexts(ts[1..])
  }

  /** Token k is acceptable: a value, or a comma right after a value. */
  predicate ReturnOk(ts: seq<Token>, k: nat, isComma: bool)
    requires k < |ts|
  {
    IsValue(ts[k]) || (IsSymbol(ts[k], ",") && (if k == 0 then !isComma else IsValue(ts[k - 1])))
  }

  /** A return list is accepted exactly when every token is acceptable, and then it
      returns its values in order. */
  lemma {:induction false} ReturnValuesAccepts(ts: seq<Token>, isComma: bool)
    ensures ReturnValues(ts, isComma).Ok? <==> forall k :: 0 <= k < |ts| ==> ReturnOk(ts, k, isComma)
    ensures ReturnValues(ts, isComma).Ok? ==> ReturnValues(ts, isComma).value == ValueTexts(ts)
    decreases |ts|
  {
    if ts != [] {
      var next := !IsValue(ts[0]);
      ReturnValuesAccepts(ts[1..], next);
      forall k | 1 <= k < |ts|
        ensures ReturnOk(ts, k, isComma) <==> ReturnOk(ts[1..], k - 1, next)
      {
      }
      if !ReturnOk(ts, 0, isComma) {
        assert ReturnValues(ts, isComma).Err?;
      } else if ReturnValues(ts[1..], next).Ok? {
        assert forall k :: 0 <= k < |ts| ==> ReturnOk(ts, k, isComma) by {
          forall k | 0 <= k < |ts| ensures ReturnOk(ts, k, isComma) {
            if k > 0 {
              assert ReturnOk(ts[1..], k - 1, next);
            }
          }
        }
      } else {
        var k :| 0 <= k < |ts| - 1 && !ReturnOk(ts[1..], k, next);
        assert !ReturnOk(ts, k + 1, isComma);
      }
    }
  }

  /** The statement parseReturn emits: the callback gets `null` and the values. */
  function ReturnLine(values: seq<string>): string {
    "return $$_callback(" + Join(["null"] + values, ", ") + ");"
  }

  // ---------------------------------------------------------------------------
  // defer

  /** The deferred action for a one-line defer: `call` is the statement to run. */
  function DeferAction(call: string): string {
    "function ($$_callback) {\n" + "      " + call + "\n      return $$_callback(null);" + "\n    }"
  }

  /** The deferred action for a defer block. */
  function DeferBlock(code: seq<string>): string {
    "function ($$_callback) {\n" + Join(code, "\n") + "\n    }"
  }

  /** parseDefer without a block: `defer f(…)` with at least three tokens and
      `defer f` become one action; `defer {` alone is a block (`None`). */
  function DeferLine(ts: seq<Token>): (r: Result<Option<string>>)
    requires ts != []
    ensures r.Ok? && r.value.Some? <==> ts[|ts| - 1].kind == Identifier || (IsSymbol(ts[|ts| - 1], ")") && |ts| >= 3)
    ensures r.Ok? && r.value.None? <==> ts == [ts[0]] && IsSymbol(ts[0], "{")
    ensures r.Err? ==> r.failure == ErrorAt(ts[|ts| - 1], "")
  {
    var lastT := ts[|ts| - 1];
    if lastT.kind == Symbol then
      if lastT.text == ")" && |ts| >= 3 then Ok(Some(DeferAction(Texts(ts) + ";")))
      else if lastT.text == "{" && |ts| == 1 then Ok(None)
      else Err(ErrorAt(lastT, ""))
    else if lastT.kind == Identifier then Ok(Some(DeferAction(Texts(ts) + "();")))
    else Err(ErrorAt(lastT, ""))
  }

  // ---------------------------------------------------------------------------
  // The compiled function

  /** The statement that registers one deferred action. */
  function DeferPush(fn: string): string {
    "    $$_defers.push(" + fn + ");"
  }

  const DeferTail: seq<string> :=
    ["    var $$_oldCallback = $$_callback;",
     "    $$_callback = function () {",
     "      var $$_args = arguments;",
     "      $$_runtime.runDefers($$_defers, function (err) {",
     "        if (err) console.error(err.stack);",
     "        $$_oldCallback.apply(null, $$_args);",
     "      });",
     "    };"]

  /** The lines that install the deferred actions: the queue, one registration per
      action in the order of the defer statements, and the callback that drains the
      queue before calling the original one. */
  function DeferLines(defers: seq<string>): (r: seq<string>)
    ensures |r| == |defers| + 1 + |DeferTail|
    ensures r[0] == "    var $$_defers = [];" && r[1 + |defers|..] == DeferTail
    ensures forall i :: 0 <= i < |defers| ==> r[1 + i] == DeferPush(defers[i])
  {
    ["    var $$_defers = [];"] + seq(|defers|, i requires 0 <= i < |defers| => DeferPush(defers[i])) + DeferTail
  }

  function DefersCode(defers: seq<string>): (s: string)
    ensures defers == [] <==> s == ""
  {
    if defers == [] then "" else Join(DeferLines(defers), "\n") + "\n"
  }

  /** The declaration of the statement's variables, when there are any. */
  function VarsCode(vars: seq<string>): (s: string)
    ensures vars == [] <==> s == ""
  {
    if vars == [] then "" else "    var " + Join(vars, ", ") + ";\n"
  }

  /** The compiled function: the arguments and the callback as parameters, the
      declarations, the deferred actions and the code inside a `try` whose `catch`
      hands the error to the callback. */
  const WrapPieces: Pieces :=
    Then(Text(WrapOpen),
    Then(Params,
    Then(Text(WrapTry),
    Then(Declarations,
    Then(Deferred,
    Then(Body,
    Then(Text(WrapCatch),
    End)))))))

  const WrapOpen := "(function ("
  const WrapTry := ") {\n  \"use strict\";\n  try {\n"
  const WrapCatch := "\n  } catch (err) {\n    return $$_callback(err);\n  }\n})"

  /** What the template is filled with: the callback is the last parameter. */
  function WrapUnit(args: seq<string>, vars: seq<string>, defers: seq<string>, code: seq<string>): (u: Unit)
    ensures u.params == args + ["$$_callback"] && u.code == code
    ensures vars == [] <==> u.declarations == ""
    ensures defers == [] <==> u.deferred == ""
  {
    Unit(args + ["$$_callback"], VarsCode(vars), DefersCode(defers), code, "")
  }

  function Wrap(args: seq<string>, vars: seq<string>, defers: seq<string>, code: seq<string>): string {
    Fill(WrapPieces, WrapUnit(args, vars, defers, code))
  }

  /** The compiled function takes the arguments and then the callback, and holds the
      declarations, the deferred actions and the code lines in that order, inside a
      `try` whose `catch` hands the error to the callback. */
  lemma WrapShape(args: seq<string>, vars: seq<string>, defers: seq<string>, code: seq<string>)
    ensures Wrap(args, vars, defers, code)
         == WrapOpen + (Join(args + ["$$_callback"], ", ") + (WrapTry
            + (VarsCode(vars) + (DefersCode(defers) + (Join(code, "\n") + WrapCatch)))))
  {
    var u := WrapUnit(args, vars, defers, code);
    var params, decl, deferred, body := Join(args + ["$$_callback"], ", "), VarsCode(vars), DefersCode(defers), Join(code, "\n");
    assert Join(u.params, ", ") == params;
    var p1 := WrapPieces.tail;
    var p3 := p1.tail.tail;
    var p5 := p3.tail.tail;
    assert Fill(p5.tail, u) == WrapCatch + Fill(End, u) == WrapCatch;
    assert Fill(p5, u) == body + WrapCatch;
    assert Fill(p3, u) == decl + (deferred + (body + WrapCatch));
    assert Fill(p1, u) == params + (WrapTry + (decl + (deferred + (body + WrapCatch))));
    assert Fill(WrapPieces, u) == WrapOpen + (params + (WrapTry + (decl + (deferred + (body + WrapCatch)))));
  }
}
