/** Token-list helpers of the statement parsers, shared by build/bright.js and
    build/tea.js: splitting off one source line, dropping whitespace tokens, turning a
    condition into JavaScript, and reading comma-separated target and value lists. */
module SyntaxCommon {
  import opened Tokens

  // ---------------------------------------------------------------------------
  // readLine

  datatype LineSplit = LineSplit(line: seq<Token>, next: seq<Token>)

  /** `line` is the maximal non-empty run of tokens sharing the first token's line
      number, and `line + next` is the whole list. */
  predicate SplitsLine(ts: seq<Token>, line: seq<Token>, next: seq<Token>) {
    line != [] && line + next == ts
    && (forall k :: 0 <= k < |line| ==> line[k].line == line[0].line)
    && (next != [] ==> next[0].line != line[0].line)
  }

  /** The end of the run of tokens on the first token's line, searched from `i`. */
  function LineEnd(ts: seq<Token>, i: nat): (n: nat)
    requires 1 <= i <= |ts|
    requires forall k :: 0 <= k < i ==> ts[k].line == ts[0].line
    ensures i <= n <= |ts|
    ensures forall k :: 0 <= k < n ==> ts[k].line == ts[0].line
    ensures n < |ts| ==> ts[n].line != ts[0].line
    decreases |ts| - i
  {
    if i == |ts| || ts[i].line != ts[0].line then i else LineEnd(ts, i + 1)
  }

  /** The number of tokens on the first line. */
  function LineLength(ts: seq<Token>): (n: nat)
    requires ts != []
    ensures 1 <= n <= |ts|
    ensures SplitsLine(ts, ts[..n], ts[n..])
  {
    var n := LineEnd(ts, 1);
    assert ts[..n] + ts[n..] == ts;
    n
  }

  /** The source lines of a token list, in order. */
  function Lines(ts: seq<Token>): seq<seq<Token>>
    decreases |ts|
  {
    if ts == [] then [] else [ts[..LineLength(ts)]] + Lines(ts[LineLength(ts)..])
  }

  /** readLine: `None` (the source's `false`) on an empty list, otherwise the split of
      the list into its first source line and the rest. */
  method ReadLine(ts: seq<Token>) returns (r: Option<LineSplit>)
    ensures r.None? <==> ts == []
    ensures r.Some? ==> SplitsLine(ts, r.value.line, r.value.next)
    ensures r.Some? ==> r.value == LineSplit(ts[..LineLength(ts)], ts[LineLength(ts)..])
  {
    if ts == [] {
      return None;
    }
    var lineNum := ts[0].line;
    var i := 1;
    while i < |ts| && ts[i].line == lineNum
      invariant 1 <= i <= |ts|
      invariant forall k :: 0 <= k < i ==> ts[k].line == lineNum
    {
      i := i + 1;
    }
    assert ts[..i] + ts[i..] == ts;
    SplitUnique(ts, ts[..i], ts[i..], ts[..LineLength(ts)], ts[LineLength(ts)..]);
    return Some(LineSplit(ts[..i], ts[i..]));
  }

  /** There is only one way to split off the first line. */
  lemma {:induction false} SplitUnique(ts: seq<Token>, l1: seq<Token>, n1: seq<Token>, l2: seq<Token>, n2: seq<Token>)
    requires SplitsLine(ts, l1, n1) && SplitsLine(ts, l2, n2)
    ensures l1 == l2 && n1 == n2
  {
    assert |l1| == |ts| || ts[|l1|].line != ts[0].line;
    assert |l2| == |ts| || ts[|l2|].line != ts[0].line;
    assert forall k :: 0 <= k < |l1| ==> ts[k].line == ts[0].line;
    assert forall k :: 0 <= k < |l2| ==> ts[k].line == ts[0].line;
    assert |l1| == |l2|;
    assert l1 == ts[..|l1|] == l2;
    assert n1 == ts[|l1|..] == n2;
  }

  // ---------------------------------------------------------------------------
  // removeBlankToken

  /** The non-whitespace tokens of a list, in their order. */
  function NonBlank(ts: seq<Token>): (r: seq<Token>)
    ensures |r| <= |ts|
    decreases |ts|
  {
    if ts == [] then []
    else (if ts[0].kind == Blank then [] else [ts[0]]) + NonBlank(ts[1..])
  }

  /** Removing blanks keeps only tokens of the list, none of them blank. */
  lemma {:induction false} NonBlankFrom(ts: seq<Token>)
    ensures forall k :: 0 <= k < |NonBlank(ts)| ==> NonBlank(ts)[k] in ts && NonBlank(ts)[k].kind != Blank
    decreases |ts|
  {
    if ts != [] {
      NonBlankFrom(ts[1..]);
      var head := if ts[0].kind == Blank then [] else [ts[0]];
      assert NonBlank(ts) == head + NonBlank(ts[1..]);
      forall k | 0 <= k < |NonBlank(ts)|
        ensures NonBlank(ts)[k] in ts && NonBlank(ts)[k].kind != Blank
      {
        if k >= |head| {
          assert NonBlank(ts)[k] == NonBlank(ts[1..])[k - |head|];
          assert NonBlank(ts[1..])[k - |head|] in ts[1..];
        }
      }
    }
  }

  lemma {:induction false} NonBlankAppend(a: seq<Token>, b: seq<Token>)
    ensures NonBlank(a + b) == NonBlank(a) + NonBlank(b)
    decreases |a|
  {
    if a == [] {
      assert a + b == b;
    } else {
      assert (a + b)[1..] == a[1..] + b;
      NonBlankAppend(a[1..], b);
    }
  }

  /** A list without whitespace tokens passes through unchanged. */
  lemma {:induction false} NonBlankKeeps(ts: seq<Token>)
    requires forall k :: 0 <= k < |ts| ==> ts[k].kind != Blank
    ensures NonBlank(ts) == ts
    decreases |ts|
  {
    if ts != [] {
      NonBlankKeeps(ts[1..]);
    }
  }

  /** removeBlankToken. */
  method RemoveBlankTokens(ts: seq<Token>) returns (r: seq<Token>)
    ensures r == NonBlank(ts)
  {
    r := [];
    var i := 0;
    while i < |ts|
      invariant 0 <= i <= |ts|
      invariant r + NonBlank(ts[i..]) == NonBlank(ts)
    {
      assert ts[i..][1..] == ts[i + 1..];
      assert NonBlank(ts[i..]) == (if ts[i].kind == Blank then [] else [ts[i]]) + NonBlank(ts[i + 1..]);
      if ts[i].kind != Blank {
        r := r + [ts[i]];
      }
      i := i + 1;
    }
  }

  // ---------------------------------------------------------------------------
  // parseCondition

  /** What one token contributes to a condition: a bare `=` becomes ` == `. */
  function CondPiece(t: Token): string {
    if IsSymbol(t, "=") then " == " else t.text
  }

  function CondText(ts: seq<Token>): string
    decreases |ts|
  {
    if ts == [] then "" else CondPiece(ts[0]) + CondText(ts[1..])
  }

  lemma {:induction false} CondTextAppend(a: seq<Token>, b: seq<Token>)
    ensures CondText(a + b) == CondText(a) + CondText(b)
    decreases |a|
  {
    if a == [] {
      assert a + b == b;
    } else {
      assert (a + b)[1..] == a[1..] + b;
      CondTextAppend(a[1..], b);
    }
  }

  /** Without a bare `=` the condition is the tokens' text unchanged. */
  lemma {:induction false} CondTextPlain(ts: seq<Token>)
    requires forall k :: 0 <= k < |ts| ==> !IsSymbol(ts[k], "=")
    ensures CondText(ts) == Texts(ts)
    decreases |ts|
  {
    if ts != [] {
      CondTextPlain(ts[1..]);
    }
  }

  /** Every bare `=` in the condition comes out as ` == `. */
  lemma EqualsBecomesComparison(a: seq<Token>, eq: Token, b: seq<Token>)
    requires IsSymbol(eq, "=")
    ensures CondText(a + [eq] + b) == CondText(a) + " == " + CondText(b)
  {
    CondTextAppend(a + [eq], b);
    CondTextAppend(a, [eq]);
  }

  /** What parseCondition gives for a list of tokens. */
  function ConditionOf(ts: seq<Token>): Result<string> {
    if ts == [] then Err(Crash)
    else if !IsSymbol(ts[|ts| - 1], "{") then Err(ErrorAt(ts[|ts| - 1], ""))
    else Ok("(" + CondText(ts[..|ts| - 1]) + ")")
  }

  /** parseCondition: the list must end with `{`; the rest, with `=` rewritten, is
      wrapped in parentheses.  Reading the last token of an empty list is a host
      TypeError. */
  method ParseCondition(ts: seq<Token>) returns (r: Result<string>)
    ensures r == ConditionOf(ts)
    ensures ts == [] ==> r == Err(Crash)
    ensures ts != [] && !IsSymbol(ts[|ts| - 1], "{") ==> r == Err(ErrorAt(ts[|ts| - 1], ""))
    ensures ts != [] && IsSymbol(ts[|ts| - 1], "{") ==> r == Ok("(" + CondText(ts[..|ts| - 1]) + ")")
  {
    if ts == [] {
      return Err(Crash);
    }
    var lastT := ts[|ts| - 1];
    if !IsSymbol(lastT, "{") {
      return Err(ErrorAt(lastT, ""));
    }
    var body := ts[..|ts| - 1];
    var cond := "";
    var i := 0;
    while i < |body|
      invariant 0 <= i <= |body|
      invariant cond + CondText(body[i..]) == CondText(body)
    {
      assert body[i..][1..] == body[i + 1..];
      cond := cond + CondPiece(body[i]);
      i := i + 1;
    }
    assert body[i..] == [];
    assert cond == CondText(body);
    return Ok("(" + cond + ")");
  }

  // ---------------------------------------------------------------------------
  // The else chain of parseIf

  /** The tokens of the first source line. */
  function FirstLine(ts: seq<Token>): seq<Token>
    requires ts != []
  {
    ts[..LineLength(ts)]
  }

  predicate IsElseLine(head: seq<Token>) {
    head != [] && IsKeywordToken(head[0], "else")
  }

  predicate IsElseifLine(head: seq<Token>) {
    head != [] && IsKeywordToken(head[0], "elseif")
  }

  /** What one line of an else chain adds to ifCondition's arguments: an `elseif`
      line its parsed condition and then its branch, an `else` line its branch. */
  predicate ElseStep(head: seq<Token>, step: seq<string>) {
    (IsElseifLine(head) && ConditionOf(head[1..]).Ok? && |step| == 2 && step[0] == ConditionOf(head[1..]).value)
    || (IsElseLine(head) && |step| == 1)
  }

  /** Each line of a chain with what it adds. */
  predicate ElseSteps(heads: seq<seq<Token>>, steps: seq<seq<string>>) {
    |steps| == |heads| && forall i :: 0 <= i < |heads| ==> ElseStep(heads[i], steps[i])
  }

  /** At most one line of a chain is an `else` line. */
  predicate OneElse(heads: seq<seq<Token>>) {
    forall i, j :: 0 <= i < j < |heads| && IsElseLine(heads[i]) ==> !IsElseLine(heads[j])
  }

  predicate NoElse(heads: seq<seq<Token>>) {
    forall i :: 0 <= i < |heads| ==> !IsElseLine(heads[i])
  }

  lemma ElseStepsSnoc(heads: seq<seq<Token>>, steps: seq<seq<string>>, head: seq<Token>, step: seq<string>)
    requires ElseSteps(heads, steps) && ElseStep(head, step)
    ensures ElseSteps(heads + [head], steps + [step])
    ensures Concat(steps + [step]) == Concat(steps) + step
  {
    ConcatSnoc(steps, step);
    assert forall i :: 0 <= i < |heads| ==> (heads + [head])[i] == heads[i] && (steps + [step])[i] == steps[i];
  }

  lemma OneElseSnoc(heads: seq<seq<Token>>, head: seq<Token>, hasElse: bool)
    requires OneElse(heads) && (!hasElse ==> NoElse(heads)) && (IsElseLine(head) ==> !hasElse)
    ensures OneElse(heads + [head])
    ensures !(hasElse || IsElseLine(head)) ==> NoElse(heads + [head])
  {
    assert forall i :: 0 <= i < |heads| ==> (heads + [head])[i] == heads[i];
  }

  /** The steps, one after the other. */
  function Concat(steps: seq<seq<string>>): seq<string>
    decreases |steps|
  {
    if steps == [] then [] else Concat(steps[..|steps| - 1]) + steps[|steps| - 1]
  }

  lemma ConcatSnoc(steps: seq<seq<string>>, step: seq<string>)
    ensures Concat(steps + [step]) == Concat(steps) + step
  {
    assert (steps + [step])[..|steps|] == steps;
  }

  // ---------------------------------------------------------------------------
  // parseMultiArgument / parseMultiValue

  /** The bracket check of one comma-separated segment: a closing bracket must match
      the innermost open one, and none may stay open. */
  datatype Brackets = Balanced | Mismatch(at: Token) | Unclosed

  predicate Opens(t: Token) { IsSymbol(t, "[") || IsSymbol(t, "(") }

  predicate Closes(t: Token) { IsSymbol(t, "]") || IsSymbol(t, ")") }

  /** Whether a closing bracket matches the innermost open one (`pop` of an empty
      stack gives undefined, which matches nothing). */
  predicate Matches(t: Token, stack: seq<string>) {
    stack != [] && ((t.text == "]" && stack[|stack| - 1] == "[") || (t.text == ")" && stack[|stack| - 1] == "("))
  }

  function CheckBrackets(seg: seq<Token>, stack: seq<string>): (b: Brackets)
    ensures b.Mismatch? ==> b.at in seg && Closes(b.at)
    decreases |seg|
  {
    if seg == [] then (if stack == [] then Balanced else Unclosed)
    else if Opens(seg[0]) then CheckBrackets(seg[1..], stack + [seg[0].text])
    else if Closes(seg[0]) then
      (if Matches(seg[0], stack) then CheckBrackets(seg[1..], stack[..|stack| - 1]) else Mismatch(seg[0]))
    else CheckBrackets(seg[1..], stack)
  }

  /** A segment without brackets is balanced. */
  lemma {:induction false} NoBracketsBalanced(seg: seq<Token>)
    requires forall k :: 0 <= k < |seg| ==> !Opens(seg[k]) && !Closes(seg[k])
    ensures CheckBrackets(seg, []) == Balanced
    decreases |seg|
  {
    if seg != [] {
      NoBracketsBalanced(seg[1..]);
    }
  }

  /** push(i): a segment becomes one name, its tokens' texts joined; a bracket error
      is reported at the closing bracket, an unclosed one at `at`, the token that
      ended the segment. */
  function Segment(seg: seq<Token>, at: Token): (r: Result<string>)
    ensures r.Ok? ==> r.value == Texts(seg)
    ensures r.Err? ==> r.failure.SyntaxError? && r.failure.message == "brackets do not match"
  {
    match CheckBrackets(seg, [])
    case Balanced => Ok(Texts(seg))
    case Mismatch(t) => Err(ErrorAt(t, "brackets do not match"))
    case Unclosed => Err(ErrorAt(at, "brackets do not match"))
  }

  /** The inner loop of push(i). */
  method CheckSegment(seg: seq<Token>, at: Token) returns (r: Result<string>)
    ensures r == Segment(seg, at)
  {
    var text := "";
    var stack: seq<string> := [];
    var i := 0;
    while i < |seg|
      invariant 0 <= i <= |seg|
      invariant text == Texts(seg[..i])
      invariant CheckBrackets(seg[i..], stack) == CheckBrackets(seg, [])
    {
      assert seg[i..][1..] == seg[i + 1..];
      TextsAppend(seg[..i], [seg[i]]);
      assert seg[..i + 1] == seg[..i] + [seg[i]];
      text := text + seg[i].text;
      if Opens(seg[i]) {
        stack := stack + [seg[i].text];
      } else if Closes(seg[i]) {
        if !Matches(seg[i], stack) {
          return Err(ErrorAt(seg[i], "brackets do not match"));
        }
        stack := stack[..|stack| - 1];
      }
      i := i + 1;
    }
    assert seg[..i] == seg;
    if stack != [] {
      return Err(ErrorAt(at, "brackets do not match"));
    }
    return Ok(text);
  }

  predicate IsSeparator(t: Token) { IsSymbol(t, ",") || IsSymbol(t, "=") }

  /** The targets of a `let`: the names before `=` and the tokens after it. */
  datatype Targets = Targets(names: seq<string>, next: seq<Token>)

  /** The loop of parseMultiArgument from index `i`, with `lastPos` the start of
      the pending segment.  A segment is pushed only when it is non-empty, so a
      second comma in a row leaves `lastPos` where it was and the comma becomes part
      of the next name.  Without `=` the pending segment is dropped and nothing
      follows. */
  function ArgumentsFrom(ts: seq<Token>, i: nat, lastPos: nat, names: seq<string>): (r: Result<Targets>)
    requires lastPos <= i <= |ts|
    decreases |ts| - i
  {
    if i == |ts| then Ok(Targets(names, []))
    else if IsSeparator(ts[i]) then
      if lastPos < i then
        match Segment(ts[lastPos..i], ts[i])
        case Err(f) => Err(f)
        case Ok(name) =>
          if ts[i].text == "=" then Ok(Targets(names + [name], ts[i + 1..]))
          else ArgumentsFrom(ts, i + 1, i + 1, names + [name])
      else if ts[i].text == "=" then Ok(Targets(names, ts[i + 1..]))
      else ArgumentsFrom(ts, i + 1, lastPos, names)
    else ArgumentsFrom(ts, i + 1, lastPos, names)
  }

  function MultiArgument(ts: seq<Token>): Result<Targets> {
    ArgumentsFrom(ts, 0, 0, [])
  }

  /** What follows the `=` is a proper suffix of the scanned tokens. */
  lemma {:induction false} ArgumentsFromSuffix(ts: seq<Token>, i: nat, lastPos: nat, names: seq<string>)
    requires lastPos <= i <= |ts|
    ensures var r := ArgumentsFrom(ts, i, lastPos, names);
            r.Ok? && r.value.next != [] ==> |r.value.next| < |ts| - i
    decreases |ts| - i
  {
    if i < |ts| {
      if IsSeparator(ts[i]) && lastPos < i {
        if Segment(ts[lastPos..i], ts[i]).Ok? {
          ArgumentsFromSuffix(ts, i + 1, i + 1, names + [Segment(ts[lastPos..i], ts[i]).value]);
        }
      } else {
        ArgumentsFromSuffix(ts, i + 1, lastPos, names);
      }
    }
  }

  /** parseMultiArgument. */
  method ParseMultiArgument(ts: seq<Token>) returns (r: Result<Targets>)
    ensures r == MultiArgument(ts)
  {
    var names: seq<string> := [];
    var lastPos := 0;
    var i := 0;
    while i < |ts|
      invariant lastPos <= i <= |ts|
      invariant ArgumentsFrom(ts, i, lastPos, names) == MultiArgument(ts)
    {
      var t := ts[i];
      if IsSeparator(t) {
        if lastPos < i {
          var name := CheckSegment(ts[lastPos..i], t);
          if name.Err? {
            return Err(name.failure);
          }
          names := names + [name.value];
          lastPos := i + 1;
        }
        if t.text == "=" {
          return Ok(Targets(names, ts[i + 1..]));
        }
      }
      i := i + 1;
    }
    return Ok(Targets(names, []));
  }

  /** The loop of parseMultiValue: like parseMultiArgument but split on commas only,
      ending with a final push of the pending segment, whose bracket error names the
      last token. */
  function ValuesFrom(ts: seq<Token>, i: nat, lastPos: nat, names: seq<string>): (r: Result<seq<string>>)
    requires lastPos <= i <= |ts|
    decreases |ts| - i
  {
    if i == |ts| then
      if lastPos < i then
        match Segment(ts[lastPos..], ts[|ts| - 1])
        case Err(f) => Err(f)
        case Ok(name) => Ok(names + [name])
      else Ok(names)
    else if IsSymbol(ts[i], ",") && lastPos < i then
      match Segment(ts[lastPos..i], ts[i])
      case Err(f) => Err(f)
      case Ok(name) => ValuesFrom(ts, i + 1, i + 1, names + [name])
    else ValuesFrom(ts, i + 1, lastPos, names)
  }

  function MultiValue(ts: seq<Token>): Result<seq<string>> {
    ValuesFrom(ts, 0, 0, [])
  }

  /** parseMultiValue. */
  method ParseMultiValue(ts: seq<Token>) returns (r: Result<seq<string>>)
    ensures r == MultiValue(ts)
  {
    var names: seq<string> := [];
    var lastPos := 0;
    var i := 0;
    while i < |ts|
      invariant lastPos <= i <= |ts|
      invariant ValuesFrom(ts, i, lastPos, names) == MultiValue(ts)
    {
      if IsSymbol(ts[i], ",") && lastPos < i {
        var name := CheckSegment(ts[lastPos..i], ts[i]);
        if name.Err? {
          return Err(name.failure);
        }
        names := names + [name.value];
        lastPos := i + 1;
      }
      i := i + 1;
    }
    if lastPos < i {
      var name := CheckSegment(ts[lastPos..], ts[|ts| - 1]);
      if name.Err? {
        return Err(name.failure);
      }
      names := names + [name.value];
    }
    return Ok(names);
  }

  // --- Reference definition of a comma-separated list

  /** A well-formed list item: non-empty, no `,` or `=` symbol, balanced brackets. */
  predicate PlainSegment(seg: seq<Token>) {
    seg != [] && (forall k :: 0 <= k < |seg| ==> !IsSeparator(seg[k]))
    && CheckBrackets(seg, []) == Balanced
  }

  /** The items joined by the given separator tokens: s0 c0 s1 c1 … sn. */
  function Listed(segs: seq<seq<Token>>, seps: seq<Token>): seq<Token>
    requires |segs| == |seps| + 1
    decreases |seps|
  {
    if seps == [] then segs[0] else segs[0] + [seps[0]] + Listed(segs[1..], seps[1..])
  }

  function SegmentTexts(segs: seq<seq<Token>>): (r: seq<string>)
    ensures |r| == |segs|
    ensures forall k :: 0 <= k < |segs| ==> r[k] == Texts(segs[k])
    decreases |segs|
  {
    if segs == [] then [] else [Texts(segs[0])] + SegmentTexts(segs[1..])
  }

  /** Scanning over a run without separators changes nothing. */
  lemma {:induction false} ArgumentsSkip(ts: seq<Token>, i: nat, j: nat, lastPos: nat, names: seq<string>)
    requires lastPos <= i <= j <= |ts|
    requires forall k :: i <= k < j ==> !IsSeparator(ts[k])
    ensures ArgumentsFrom(ts, i, lastPos, names) == ArgumentsFrom(ts, j, lastPos, names)
    decreases j - i
  {
    if i < j {
      ArgumentsSkip(ts, i + 1, j, lastPos, names);
    }
  }

  lemma {:induction false} ValuesSkip(ts: seq<Token>, i: nat, j: nat, lastPos: nat, names: seq<string>)
    requires lastPos <= i <= j <= |ts|
    requires forall k :: i <= k < j ==> !IsSeparator(ts[k])
    ensures ValuesFrom(ts, i, lastPos, names) == ValuesFrom(ts, j, lastPos, names)
    decreases j - i
  {
    if i < j {
      ValuesSkip(ts, i + 1, j, lastPos, names);
    }
  }

  /** A plain item followed by a separator becomes the next target. */
  lemma ArgumentsAtSeparator(ts: seq<Token>, i: nat, lastPos: nat, names: seq<string>)
    requires lastPos < i < |ts| && PlainSegment(ts[lastPos..i]) && IsSeparator(ts[i])
    ensures ArgumentsFrom(ts, i, lastPos, names)
         == if ts[i].text == "=" then Ok(Targets(names + [Texts(ts[lastPos..i])], ts[i + 1..]))
            else ArgumentsFrom(ts, i + 1, i + 1, names + [Texts(ts[lastPos..i])])
  {
  }

  lemma ValuesAtComma(ts: seq<Token>, i: nat, lastPos: nat, names: seq<string>)
    requires lastPos < i < |ts| && PlainSegment(ts[lastPos..i]) && IsSymbol(ts[i], ",")
    ensures ValuesFrom(ts, i, lastPos, names) == ValuesFrom(ts, i + 1, i + 1, names + [Texts(ts[lastPos..i])])
  {
  }

  lemma ValuesAtEnd(ts: seq<Token>, lastPos: nat, names: seq<string>)
    requires lastPos < |ts| && PlainSegment(ts[lastPos..])
    ensures ValuesFrom(ts, |ts|, lastPos, names) == Ok(names + [Texts(ts[lastPos..])])
  {
  }

  /** Where the parts of `a + [c] + b` sit when the whole sits in `ts` at `p`. */
  lemma PartsAt(ts: seq<Token>, p: nat, a: seq<Token>, c: Token, b: seq<Token>)
    requires p + |a| + 1 + |b| <= |ts| && ts[p..p + |a| + 1 + |b|] == a + [c] + b
    ensures ts[p..p + |a|] == a && ts[p + |a|] == c
    ensures ts[p + |a| + 1..p + |a| + 1 + |b|] == b
  {
    var w := ts[p..p + |a| + 1 + |b|];
    assert w[..|a|] == a && w[|a|] == c && w[|a| + 1..] == b;
  }

  /** A list of more than one item, sitting in `ts` from position `p` on: its first
      item, then a separator, then the rest of the list. */
  lemma ListedCons(ts: seq<Token>, p: nat, segs: seq<seq<Token>>, seps: seq<Token>)
    requires |segs| == |seps| + 1 && seps != []
    requires p + |Listed(segs, seps)| <= |ts| && ts[p..p + |Listed(segs, seps)|] == Listed(segs, seps)
    ensures var j := p + |segs[0]|;
      j < |ts| && ts[p..j] == segs[0] && ts[j] == seps[0]
      && j + 1 + |Listed(segs[1..], seps[1..])| == p + |Listed(segs, seps)|
      && ts[j + 1..j + 1 + |Listed(segs[1..], seps[1..])|] == Listed(segs[1..], seps[1..])
  {
    assert Listed(segs, seps) == segs[0] + [seps[0]] + Listed(segs[1..], seps[1..]);
    PartsAt(ts, p, segs[0], seps[0], Listed(segs[1..], seps[1..]));
  }

  /** An item sitting in `ts` from position `p` on holds no separator. */
  lemma ItemAt(ts: seq<Token>, p: nat, s: seq<Token>)
    requires PlainSegment(s) && p + |s| <= |ts| && ts[p..p + |s|] == s
    ensures forall k :: p <= k < p + |s| ==> !IsSeparator(ts[k])
  {
    assert forall k :: p <= k < p + |s| ==> ts[k] == s[k - p];
  }

  /** The last item of a target list, followed by `=`. */
  lemma ArgumentsLast(ts: seq<Token>, p: nat, s: seq<Token>, names: seq<string>)
    requires PlainSegment(s) && p + |s| < |ts| && ts[p..p + |s|] == s && IsSymbol(ts[p + |s|], "=")
    ensures ArgumentsFrom(ts, p, p, names) == Ok(Targets(names + [Texts(s)], ts[p + |s| + 1..]))
  {
    ItemAt(ts, p, s);
    ArgumentsSkip(ts, p, p + |s|, p, names);
    ArgumentsAtSeparator(ts, p + |s|, p, names);
  }

  /** An item of a target list followed by a comma. */
  lemma ArgumentsNext(ts: seq<Token>, p: nat, s: seq<Token>, names: seq<string>)
    requires PlainSegment(s) && p + |s| < |ts| && ts[p..p + |s|] == s && IsSymbol(ts[p + |s|], ",")
    ensures ArgumentsFrom(ts, p, p, names) == ArgumentsFrom(ts, p + |s| + 1, p + |s| + 1, names + [Texts(s)])
  {
    ItemAt(ts, p, s);
    ArgumentsSkip(ts, p, p + |s|, p, names);
    ArgumentsAtSeparator(ts, p + |s|, p, names);
  }

  /** parseMultiArgument reads back the targets of `s0, s1, …, sn = rest` that sit
      in `ts` from position `p` on. */
  lemma {:induction false} ArgumentsOfListed(ts: seq<Token>, p: nat, segs: seq<seq<Token>>, seps: seq<Token>, names: seq<string>)
    requires |segs| == |seps| + 1
    requires forall k :: 0 <= k < |segs| ==> PlainSegment(segs[k])
    requires forall k :: 0 <= k < |seps| ==> IsSymbol(seps[k], ",")
    requires p + |Listed(segs, seps)| < |ts| && ts[p..p + |Listed(segs, seps)|] == Listed(segs, seps)
    requires IsSymbol(ts[p + |Listed(segs, seps)|], "=")
    ensures ArgumentsFrom(ts, p, p, names)
         == Ok(Targets(names + SegmentTexts(segs), ts[p + |Listed(segs, seps)| + 1..]))
    decreases |seps|
  {
    var s := segs[0];
    if seps == [] {
      ArgumentsLast(ts, p, s, names);
      assert SegmentTexts(segs) == [Texts(s)];
    } else {
      ListedCons(ts, p, segs, seps);
      ArgumentsNext(ts, p, s, names);
      ArgumentsOfListed(ts, p + |s| + 1, segs[1..], seps[1..], names + [Texts(s)]);
      assert SegmentTexts(segs) == [Texts(s)] + SegmentTexts(segs[1..]);
      assert names + [Texts(s)] + SegmentTexts(segs[1..]) == names + SegmentTexts(segs);
    }
  }

  /** `let s0, …, sn = rest`: the i-th target is the i-th item, in order. */
  lemma MultiArgumentListed(segs: seq<seq<Token>>, seps: seq<Token>, eq: Token, rest: seq<Token>)
    requires |segs| == |seps| + 1
    requires forall k :: 0 <= k < |segs| ==> PlainSegment(segs[k])
    requires forall k :: 0 <= k < |seps| ==> IsSymbol(seps[k], ",")
    requires IsSymbol(eq, "=")
    ensures MultiArgument(Listed(segs, seps) + [eq] + rest) == Ok(Targets(SegmentTexts(segs), rest))
  {
    var l := Listed(segs, seps);
    var ts := l + [eq] + rest;
    assert ts[0..|l|] == l && ts[|l|] == eq && ts[|l| + 1..] == rest;
    ArgumentsOfListed(ts, 0, segs, seps, []);
    assert [] + SegmentTexts(segs) == SegmentTexts(segs);
  }

  /** The last item of a value list. */
  lemma ValuesLast(ts: seq<Token>, p: nat, s: seq<Token>, names: seq<string>)
    requires PlainSegment(s) && p + |s| == |ts| && ts[p..] == s
    ensures ValuesFrom(ts, p, p, names) == Ok(names + [Texts(s)])
  {
    assert ts[p..p + |s|] == s;
    ItemAt(ts, p, s);
    ValuesSkip(ts, p, |ts|, p, names);
    ValuesAtEnd(ts, p, names);
  }

  /** An item of a value list followed by a comma. */
  lemma ValuesNext(ts: seq<Token>, p: nat, s: seq<Token>, names: seq<string>)
    requires PlainSegment(s) && p + |s| < |ts| && ts[p..p + |s|] == s && IsSymbol(ts[p + |s|], ",")
    ensures ValuesFrom(ts, p, p, names) == ValuesFrom(ts, p + |s| + 1, p + |s| + 1, names + [Texts(s)])
  {
    ItemAt(ts, p, s);
    ValuesSkip(ts, p, p + |s|, p, names);
    ValuesAtComma(ts, p + |s|, p, names);
  }

  lemma {:induction false} ValuesOfListed(ts: seq<Token>, p: nat, segs: seq<seq<Token>>, seps: seq<Token>, names: seq<string>)
    requires |segs| == |seps| + 1
    requires forall k :: 0 <= k < |segs| ==> PlainSegment(segs[k])
    requires forall k :: 0 <= k < |seps| ==> IsSymbol(seps[k], ",")
    requires p + |Listed(segs, seps)| == |ts| && ts[p..] == Listed(segs, seps)
    ensures ValuesFrom(ts, p, p, names) == Ok(names + SegmentTexts(segs))
    decreases |seps|
  {
    var s := segs[0];
    if seps == [] {
      ValuesLast(ts, p, s, names);
      assert SegmentTexts(segs) == [Texts(s)];
    } else {
      assert ts[p..p + |Listed(segs, seps)|] == ts[p..];
      ListedCons(ts, p, segs, seps);
      ValuesNext(ts, p, s, names);
      assert ts[p + |s| + 1..] == ts[p + |s| + 1..p + |s| + 1 + |Listed(segs[1..], seps[1..])|];
      ValuesOfListed(ts, p + |s| + 1, segs[1..], seps[1..], names + [Texts(s)]);
      assert SegmentTexts(segs) == [Texts(s)] + SegmentTexts(segs[1..]);
      assert names + [Texts(s)] + SegmentTexts(segs[1..]) == names + SegmentTexts(segs);
    }
  }

  /** `return s0, …, sn`: the values are the items, in order. */
  lemma MultiValueListed(segs: seq<seq<Token>>, seps: seq<Token>)
    requires |segs| == |seps| + 1
    requires forall k :: 0 <= k < |segs| ==> PlainSegment(segs[k])
    requires forall k :: 0 <= k < |seps| ==> IsSymbol(seps[k], ",")
    ensures MultiValue(Listed(segs, seps)) == Ok(SegmentTexts(segs))
  {
    var ts := Listed(segs, seps);
    assert ts[0..] == ts;
    ValuesOfListed(ts, 0, segs, seps, []);
    assert [] + SegmentTexts(segs) == SegmentTexts(segs);
  }

  /** Without a comma the whole list is one value: `return a b` returns `ab`,
      because the whitespace between the two is gone before parseMultiValue runs. */
  lemma OneValueWithoutCommas(ts: seq<Token>)
    requires PlainSegment(ts)
    ensures MultiValue(ts) == Ok([Texts(ts)])
  {
    MultiValueListed([ts], []);
    assert Listed([ts], []) == ts;
    assert SegmentTexts([ts]) == [Texts(ts)];
  }

  // ---------------------------------------------------------------------------
  // getMultiArgumentsCode

  /** The name of the i-th callback parameter. */
  function ArgSlot(i: nat): string {
    "$$_arg_" + NatToString(i)
  }

  lemma {:induction false} NatToStringInjective(a: nat, b: nat)
    requires NatToString(a) == NatToString(b)
    ensures a == b
    decreases a
  {
    var sa, sb := NatToString(a), NatToString(b);
    if a < 10 && b < 10 {
      assert sa[0] == DigitChar(a) && sb[0] == DigitChar(b);
      DigitCharInjective(a, b);
    } else if a >= 10 && b >= 10 {
      var pa, pb := NatToString(a / 10), NatToString(b / 10);
      assert sa == pa + [DigitChar(a % 10)] && sb == pb + [DigitChar(b % 10)];
      assert sa[..|sa| - 1] == pa && sb[..|sb| - 1] == pb;
      DigitCharInjective(a % 10, b % 10);
      NatToStringInjective(a / 10, b / 10);
    } else {
      assert false;
    }
  }

  lemma DigitCharInjective(a: nat, b: nat)
    requires a < 10 && b < 10 && DigitChar(a) == DigitChar(b)
    ensures a == b
  {
  }

  /** Distinct positions get distinct parameters. */
  lemma ArgSlotsDistinct(i: nat, j: nat)
    requires i != j
    ensures ArgSlot(i) != ArgSlot(j)
  {
    if ArgSlot(i) == ArgSlot(j) {
      assert ArgSlot(i)[7..] == NatToString(i);
      assert ArgSlot(j)[7..] == NatToString(j);
      NatToStringInjective(i, j);
    }
  }

  datatype ArgumentCode = ArgumentCode(args: seq<string>, init: seq<string>)

  /** getMultiArgumentsCode: the i-th callback parameter is `$$_arg_i`, and the i-th
      initialisation line copies it into the i-th target. */
  method MultiArgumentsCode(names: seq<string>) returns (r: ArgumentCode)
    ensures |r.args| == |names| && |r.init| == |names|
    ensures forall i :: 0 <= i < |names| ==> r.args[i] == ArgSlot(i)
    ensures forall i :: 0 <= i < |names| ==> r.init[i] == names[i] + " = " + ArgSlot(i) + ";"
  {
    var args: seq<string> := [];
    var init: seq<string> := [];
    var i := 0;
    while i < |names|
      invariant 0 <= i <= |names|
      invariant |args| == i && |init| == i
      invariant forall k :: 0 <= k < i ==> args[k] == ArgSlot(k)
      invariant forall k :: 0 <= k < i ==> init[k] == names[k] + " = " + ArgSlot(k) + ";"
    {
      var slot := ArgSlot(i);
      args := args + [slot];
      init := init + [names[i] + " = " + slot + ";"];
      i := i + 1;
    }
    r := ArgumentCode(args, init);
  }

  // ---------------------------------------------------------------------------
  // Expression text (bright's parseExpression)

  predicate NameLike(t: Token) { t.kind == Identifier || t.kind == Keyword }

  /** The tokens' texts joined, with one space between two adjacent names;
      `isName` says whether the token before the list was a name. */
  function Spaced(ts: seq<Token>, isName: bool): string
    decreases |ts|
  {
    if ts == [] then "" else SpacedPiece(ts[0], isName) + Spaced(ts[1..], NameLike(ts[0]))
  }

  /** What one token contributes: its text, after a space when it is a name that
      follows a name. */
  function SpacedPiece(t: Token, isName: bool): string {
    if NameLike(t) && isName then " " + t.text else t.text
  }

  /** Without two adjacent names the spacing adds nothing. */
  lemma {:induction false} SpacedPlain(ts: seq<Token>, isName: bool)
    requires ts != [] && isName ==> !NameLike(ts[0])
    requires forall k :: 0 <= k < |ts| - 1 ==> !(NameLike(ts[k]) && NameLike(ts[k + 1]))
    ensures Spaced(ts, isName) == Texts(ts)
    decreases |ts|
  {
    if ts != [] {
      SpacedPlain(ts[1..], NameLike(ts[0]));
    }
  }

  /** Two adjacent names are separated by exactly one space. */
  lemma SpacedNames(a: Token, b: Token, rest: seq<Token>, isName: bool)
    requires NameLike(a) && NameLike(b)
    ensures Spaced([a, b] + rest, isName)
         == (if isName then " " else "") + a.text + " " + b.text + Spaced(rest, true)
  {
    assert ([a, b] + rest)[1..] == [b] + rest;
    assert ([b] + rest)[1..] == rest;
  }

  /** The line parseExpression emits: `name = ` when a name is given, then the
      trimmed expression text. */
  function ExpressionLine(name: string, ts: seq<Token>): (s: string)
    ensures name != "" ==> name + " = " <= s
    ensures name == "" ==> s == Trim(Spaced(ts, false))
  {
    (if name != "" then name + " = " else "") + Trim(Spaced(ts, false))
  }

  /** The expression text, by the loop of parseExpression. */
  method SpacedText(ts: seq<Token>) returns (code: string)
    ensures code == Spaced(ts, false)
  {
    code := "";
    var isName := false;
    var i := 0;
    while i < |ts|
      invariant 0 <= i <= |ts|
      invariant code + Spaced(ts[i..], isName) == Spaced(ts, false)
    {
      assert ts[i..][1..] == ts[i + 1..];
      assert Spaced(ts[i..], isName) == SpacedPiece(ts[i], isName) + Spaced(ts[i + 1..], NameLike(ts[i]));
      code := code + SpacedPiece(ts[i], isName);
      isName := NameLike(ts[i]);
      i := i + 1;
    }
  }

  // ---------------------------------------------------------------------------
  // Token texts, by the `call += t.text` loops of the handlers

  method JoinTexts(ts: seq<Token>) returns (s: string)
    ensures s == Texts(ts)
  {
    s := "";
    var i := 0;
    while i < |ts|
      invariant 0 <= i <= |ts|
      invariant s + Texts(ts[i..]) == Texts(ts)
    {
      assert ts[i..][1..] == ts[i + 1..];
      s := s + ts[i].text;
      i := i + 1;
    }
  }
}
