/** The second lexing pass, `exports.parse` (build/bright.js:1359-1457, and the same
    code in build/tea.js:1231-1330): names become keywords or identifiers, a `.`
    directly before a number is merged into it, two- and three-character operators
    are merged, and the literal names end up as identifiers. */
module Classifier {
  import opened Tokens
  import opened Lexer

  // Version.AsWritten: the pass as the bundle is written, which skips the token
  // after a merged number and looks keywords up in an object that also answers for
  // the members every object inherits; Version.Intended: both slips corrected (see
  // "Findings" in the README).

  /** The members of Object.prototype that a lookup `_KEYWORD[w]` finds on an empty
      object literal (ECMAScript 2015, section 19.1.3 and Annex B.2.2). */
  const ObjectMembers: seq<string> := [
    "constructor", "hasOwnProperty", "isPrototypeOf", "propertyIsEnumerable",
    "toLocaleString", "toString", "valueOf", "__proto__", "__defineGetter__",
    "__defineSetter__", "__lookupGetter__", "__lookupSetter__"]

  function Keywords(d: Dialect): (ks: seq<string>)
    ensures forall w :: w in LiteralNames ==> w in ks
  {
    if d == Bright then BrightKeywords else TeaKeywords
  }

  /** isKeyword(w). */
  predicate IsKeyword(v: Version, d: Dialect, w: string) {
    w in Keywords(d) || (v == AsWritten && w in ObjectMembers)
  }

  /** `prevT && prevT.type === SYMBLE ? prevT.text : null` for index `j`. */
  function SymbolText(ts: seq<Token>, j: int): (r: Option<string>)
    ensures r.Some? <==> 0 <= j < |ts| && ts[j].kind == Symbol
    ensures r.Some? ==> r.value == ts[j].text
  {
    if 0 <= j < |ts| && ts[j].kind == Symbol then Some(ts[j].text) else None
  }

  /** A keyword next to a `.`, or used as a key `{k:` / `,k:`, is an identifier. */
  predicate UsedAsName(ts: seq<Token>, i: int) {
    var p := SymbolText(ts, i - 1);
    var n := SymbolText(ts, i + 1);
    p == Some(".") || n == Some(".") || ((p == Some("{") || p == Some(",")) && n == Some(":"))
  }

  function NameKind(v: Version, d: Dialect, ts: seq<Token>, i: int): (k: TokenKind)
    requires 0 <= i < |ts|
    ensures k == Keyword || k == Identifier
  {
    if IsKeyword(v, d, ts[i].text) && !UsedAsName(ts, i) then Keyword else Identifier
  }

  /** The number at `i` absorbs the `.` right before it. */
  predicate JoinsDot(ts: seq<Token>, i: int) {
    1 <= i < |ts| && ts[i].kind == Number
    && ts[i - 1].kind == Symbol && ts[i - 1].text == "."
    && ts[i - 1].column + 1 == ts[i].column && ts[i - 1].line == ts[i].line
    && (i < 2 || ts[i - 2].kind == Symbol)
  }

  predicate PairMerges(a: string, b: string) {
    (a == "+" && b == "+") || (a == "-" && b == "-") || (a == "<" && b == "<")
    || (a == ">" && b == ">") || (a == "=" && b == "=") || (a == ">" && b == "=")
    || (a == "<" && b == "=") || (a == "!" && b == "=")
  }

  /** The symbol at `i` and the token after it form one operator. */
  predicate JoinsPair(ts: seq<Token>, i: int) {
    0 <= i && i + 1 < |ts| && ts[i].kind == Symbol && ts[i].line == ts[i + 1].line
    && PairMerges(ts[i].text, ts[i + 1].text)
  }

  /** ... and the symbol after those two makes it `===` or `!==`. */
  predicate JoinsTriple(ts: seq<Token>, i: int) {
    JoinsPair(ts, i) && (ts[i].text == "=" || ts[i].text == "!") && ts[i + 1].text == "="
    && i + 2 < |ts| && ts[i + 2].kind == Symbol && ts[i + 2].text == "="
  }

  /** One turn of the loop at index `i`: the new list and the next index. */
  function Visit(v: Version, d: Dialect, ts: seq<Token>, i: int): (r: (seq<Token>, int))
    requires 0 <= i < |ts|
    ensures i <= r.1 <= |r.0| + 1 && |r.0| <= |ts| && |r.0| - r.1 < |ts| - i
  {
    var w := ts[i];
    match w.kind
    case Name => (ts[i := w.(kind := NameKind(v, d, ts, i))], i + 1)
    case Number =>
      if JoinsDot(ts, i) then
        var p := ts[i - 1];
        (ts[..i - 1] + [NewToken(Number, p.line, p.column, p.text + w.text)] + ts[i + 1..],
         if v == AsWritten then i + 1 else i)
      else (ts, i + 1)
    case Symbol =>
      if JoinsTriple(ts, i) then
        (ts[..i] + [NewToken(Symbol, w.line, w.column, w.text + ts[i + 1].text + ts[i + 2].text)] + ts[i + 3..], i + 1)
      else if JoinsPair(ts, i) then
        (ts[..i] + [NewToken(Symbol, w.line, w.column, w.text + ts[i + 1].text)] + ts[i + 2..], i + 1)
      else (ts, i + 1)
    case _ => (ts, i + 1)
  }

  /** The loop from index `i` to the end of the (shrinking) list. */
  function Sweep(v: Version, d: Dialect, ts: seq<Token>, i: int): seq<Token>
    requires 0 <= i
    decreases |ts| + 1 - i
  {
    if i >= |ts| then ts
    else
      var r := Visit(v, d, ts, i);
      Sweep(v, d, r.0, r.1)
  }

  /** The final forEach: keywords among the literal names become identifiers. */
  function Retag(t: Token): (u: Token)
    ensures u.text == t.text && u.line == t.line && u.column == t.column
    ensures u.kind == (if t.kind == Keyword && t.text in LiteralNames then Identifier else t.kind)
  {
    if t.kind == Keyword && t.text in LiteralNames then t.(kind := Identifier) else t
  }

  function RetagAll(ts: seq<Token>): (r: seq<Token>)
    ensures |r| == |ts| && forall j :: 0 <= j < |ts| ==> r[j] == Retag(ts[j])
  {
    seq(|ts|, j requires 0 <= j < |ts| => Retag(ts[j]))
  }

  function ClassifyList(v: Version, d: Dialect, raw: seq<Token>): seq<Token> {
    RetagAll(Sweep(v, d, raw, 0))
  }

  /** `exports.parse(source)`: the scan, then the classification of its tokens. */
  function Parse(v: Version, d: Dialect, source: string): LexResult {
    match Tokenize(d, source)
    case LexFailure(e, l, c) => LexFailure(e, l, c)
    case Tokens(list) => Tokens(ClassifyList(v, d, list))
  }

  /** The classification loops, rewriting the list in place as the source does. */
  method Classify(v: Version, d: Dialect, raw: seq<Token>) returns (out: seq<Token>)
    ensures out == ClassifyList(v, d, raw)
  {
    var ts := raw;
    var i := 0;
    while i < |ts|
      invariant 0 <= i <= |ts| + 1
      invariant Sweep(v, d, ts, i) == Sweep(v, d, raw, 0)
      decreases |ts| + 1 - i
    {
      var w := ts[i];
      if w.kind == Name {
        ts := ts[i := w.(kind := NameKind(v, d, ts, i))];
        i := i + 1;
      } else if w.kind == Number && JoinsDot(ts, i) {
        var p := ts[i - 1];
        ts := ts[..i - 1] + [NewToken(Number, p.line, p.column, p.text + w.text)] + ts[i + 1..];
        if v == AsWritten {
          i := i + 1;
        }
      } else if w.kind == Symbol && JoinsTriple(ts, i) {
        ts := ts[..i] + [NewToken(Symbol, w.line, w.column, w.text + ts[i + 1].text + ts[i + 2].text)] + ts[i + 3..];
        i := i + 1;
      } else if w.kind == Symbol && JoinsPair(ts, i) {
        ts := ts[..i] + [NewToken(Symbol, w.line, w.column, w.text + ts[i + 1].text)] + ts[i + 2..];
        i := i + 1;
      } else {
        i := i + 1;
      }
    }
    out := RetagLiterals(ts);
  }

  /** The final forEach, rewriting token kinds in place. */
  method RetagLiterals(ts: seq<Token>) returns (out: seq<Token>)
    ensures out == RetagAll(ts)
  {
    out := ts;
    var k := 0;
    while k < |out|
      invariant 0 <= k <= |out| && |out| == |ts|
      invariant forall j :: 0 <= j < k ==> out[j] == Retag(ts[j])
      invariant forall j :: k <= j < |out| ==> out[j] == ts[j]
    {
      if out[k].kind == Keyword && out[k].text in LiteralNames {
        out := out[k := out[k].(kind := Identifier)];
      }
      k := k + 1;
    }
  }
}

/** What the classification keeps and what it guarantees about its output. */
module ClassifierFacts {
  import opened Tokens
  import opened Lexer
  import opened Classifier
  import opened LexerFacts

  // ---------------------------------------------------------------------------
  // The text of the program is kept

  lemma TextsOne(ts: seq<Token>, a: int)
    requires 0 <= a < |ts|
    ensures Texts(ts[a..a + 1]) == ts[a].text
  {
    assert ts[a..a + 1][1..] == [];
  }

  lemma TextsTwo(ts: seq<Token>, a: int)
    requires 0 <= a && a + 2 <= |ts|
    ensures Texts(ts[a..a + 2]) == ts[a].text + ts[a + 1].text
  {
    assert ts[a..a + 2][1..] == ts[a + 1..a + 2];
    TextsOne(ts, a + 1);
  }

  lemma TextsThree(ts: seq<Token>, a: int)
    requires 0 <= a && a + 3 <= |ts|
    ensures Texts(ts[a..a + 3]) == ts[a].text + ts[a + 1].text + ts[a + 2].text
  {
    assert ts[a..a + 3][1..] == ts[a + 1..a + 3];
    TextsTwo(ts, a + 1);
  }

  /** Replacing the slice `a..b` by one token carrying its text keeps the whole text. */
  lemma TextsSplice(ts: seq<Token>, a: int, b: int, x: Token)
    requires 0 <= a <= b <= |ts| && x.text == Texts(ts[a..b])
    ensures Texts(ts[..a] + [x] + ts[b..]) == Texts(ts)
  {
    SliceRejoin(ts, a, b);
    TextsConcat3(ts[..a], ts[a..b], ts[b..]);
    TextsConcat3(ts[..a], [x], ts[b..]);
    TextsSingle(x);
  }

  /** The four ways a visit rewrites the list, each a splice of one token. */
  lemma NameSplice(v: Version, d: Dialect, ts: seq<Token>, i: int)
    requires 0 <= i < |ts| && ts[i].kind == Name
    ensures Visit(v, d, ts, i).0 == ts[..i] + [ts[i].(kind := NameKind(v, d, ts, i))] + ts[i + 1..]
  {
  }

  lemma DotSplice(v: Version, d: Dialect, ts: seq<Token>, i: int)
    requires 0 <= i < |ts| && JoinsDot(ts, i)
    ensures Visit(v, d, ts, i).0 == ts[..i - 1] + [NewToken(Number, ts[i - 1].line, ts[i - 1].column, ts[i - 1].text + ts[i].text)] + ts[i + 1..]
  {
  }

  lemma TripleSplice(v: Version, d: Dialect, ts: seq<Token>, i: int)
    requires 0 <= i < |ts| && JoinsTriple(ts, i)
    ensures Visit(v, d, ts, i).0 == ts[..i] + [NewToken(Symbol, ts[i].line, ts[i].column, ts[i].text + ts[i + 1].text + ts[i + 2].text)] + ts[i + 3..]
  {
  }

  lemma PairSplice(v: Version, d: Dialect, ts: seq<Token>, i: int)
    requires 0 <= i < |ts| && JoinsPair(ts, i) && !JoinsTriple(ts, i)
    ensures Visit(v, d, ts, i).0 == ts[..i] + [NewToken(Symbol, ts[i].line, ts[i].column, ts[i].text + ts[i + 1].text)] + ts[i + 2..]
  {
  }

  lemma Untouched(v: Version, d: Dialect, ts: seq<Token>, i: int)
    requires 0 <= i < |ts| && ts[i].kind != Name && !JoinsDot(ts, i) && !JoinsPair(ts, i)
    ensures Visit(v, d, ts, i).0 == ts
  {
  }

  /** Each splice keeps the text. */
  lemma RetypeTexts(ts: seq<Token>, i: int, x: Token)
    requires 0 <= i < |ts| && x.text == ts[i].text
    ensures Texts(ts[..i] + [x] + ts[i + 1..]) == Texts(ts)
  {
    TextsOne(ts, i);
    TextsSplice(ts, i, i + 1, x);
  }

  lemma JoinTwoTexts(ts: seq<Token>, i: int, x: Token)
    requires 0 <= i && i + 2 <= |ts| && x.text == ts[i].text + ts[i + 1].text
    ensures Texts(ts[..i] + [x] + ts[i + 2..]) == Texts(ts)
  {
    TextsTwo(ts, i);
    TextsSplice(ts, i, i + 2, x);
  }

  lemma JoinThreeTexts(ts: seq<Token>, i: int, x: Token)
    requires 0 <= i && i + 3 <= |ts| && x.text == ts[i].text + ts[i + 1].text + ts[i + 2].text
    ensures Texts(ts[..i] + [x] + ts[i + 3..]) == Texts(ts)
  {
    TextsThree(ts, i);
    TextsSplice(ts, i, i + 3, x);
  }

  lemma VisitTexts(v: Version, d: Dialect, ts: seq<Token>, i: int)
    requires 0 <= i < |ts|
    ensures Texts(Visit(v, d, ts, i).0) == Texts(ts)
  {
    if ts[i].kind == Name {
      NameTexts(v, d, ts, i);
    } else if JoinsDot(ts, i) {
      DotTexts(v, d, ts, i);
    } else if JoinsTriple(ts, i) {
      TripleTexts(v, d, ts, i);
    } else if JoinsPair(ts, i) {
      PairTexts(v, d, ts, i);
    } else {
      Untouched(v, d, ts, i);
    }
  }

  lemma NameTexts(v: Version, d: Dialect, ts: seq<Token>, i: int)
    requires 0 <= i < |ts| && ts[i].kind == Name
    ensures Texts(Visit(v, d, ts, i).0) == Texts(ts)
  {
    NameSplice(v, d, ts, i);
    RetypeTexts(ts, i, ts[i].(kind := NameKind(v, d, ts, i)));
  }

  lemma DotTexts(v: Version, d: Dialect, ts: seq<Token>, i: int)
    requires 0 <= i < |ts| && JoinsDot(ts, i)
    ensures Texts(Visit(v, d, ts, i).0) == Texts(ts)
  {
    DotSplice(v, d, ts, i);
    JoinTwoTexts(ts, i - 1, NewToken(Number, ts[i - 1].line, ts[i - 1].column, ts[i - 1].text + ts[i].text));
  }

  lemma TripleTexts(v: Version, d: Dialect, ts: seq<Token>, i: int)
    requires 0 <= i < |ts| && JoinsTriple(ts, i)
    ensures Texts(Visit(v, d, ts, i).0) == Texts(ts)
  {
    TripleSplice(v, d, ts, i);
    JoinThreeTexts(ts, i, NewToken(Symbol, ts[i].line, ts[i].column, ts[i].text + ts[i + 1].text + ts[i + 2].text));
  }

  lemma PairTexts(v: Version, d: Dialect, ts: seq<Token>, i: int)
    requires 0 <= i < |ts| && JoinsPair(ts, i) && !JoinsTriple(ts, i)
    ensures Texts(Visit(v, d, ts, i).0) == Texts(ts)
  {
    PairSplice(v, d, ts, i);
    JoinTwoTexts(ts, i, NewToken(Symbol, ts[i].line, ts[i].column, ts[i].text + ts[i + 1].text));
  }

  lemma {:induction false} SweepTexts(v: Version, d: Dialect, ts: seq<Token>, i: int)
    requires 0 <= i
    ensures Texts(Sweep(v, d, ts, i)) == Texts(ts)
    decreases |ts| + 1 - i
  {
    if i < |ts| {
      VisitTexts(v, d, ts, i);
      SweepTexts(v, d, Visit(v, d, ts, i).0, Visit(v, d, ts, i).1);
    }
  }

  lemma {:induction false} TextsAlike(a: seq<Token>, b: seq<Token>)
    requires |a| == |b| && forall j :: 0 <= j < |a| ==> a[j].text == b[j].text
    ensures Texts(a) == Texts(b)
    decreases |a|
  {
    if a != [] {
      TextsAlike(a[1..], b[1..]);
    }
  }

  /** Merging and retagging never change the program text: the token texts
      concatenate to the same string before and after. */
  lemma ClassifyKeepsTexts(v: Version, d: Dialect, raw: seq<Token>)
    ensures Texts(ClassifyList(v, d, raw)) == Texts(raw)
  {
    SweepTexts(v, d, raw, 0);
    TextsAlike(ClassifyList(v, d, raw), Sweep(v, d, raw, 0));
  }

  /** The pass never lengthens the list. */
  lemma {:induction false} SweepShrinks(v: Version, d: Dialect, ts: seq<Token>, i: int)
    requires 0 <= i
    ensures |Sweep(v, d, ts, i)| <= |ts|
    decreases |ts| + 1 - i
  {
    if i < |ts| {
      SweepShrinks(v, d, Visit(v, d, ts, i).0, Visit(v, d, ts, i).1);
    }
  }

  // ---------------------------------------------------------------------------
  // Positions: every token keeps the position of a token it came from

  /** Token `x` stands where some token of `b` stands. */
  predicate PlacedIn(x: Token, b: seq<Token>) {
    exists k :: 0 <= k < |b| && b[k].line == x.line && b[k].column == x.column
  }

  predicate FromPositions(a: seq<Token>, b: seq<Token>) {
    forall j :: 0 <= j < |a| ==> PlacedIn(a[j], b)
  }

  lemma SplicePositions(ts: seq<Token>, a: int, b: int, x: Token)
    requires 0 <= a < b <= |ts| && x.line == ts[a].line && x.column == ts[a].column
    ensures FromPositions(ts[..a] + [x] + ts[b..], ts)
  {
    var r := ts[..a] + [x] + ts[b..];
    forall j | 0 <= j < |r|
      ensures PlacedIn(r[j], ts)
    {
      if j < a {
        assert r[j] == ts[j];
      } else if j == a {
        assert r[j] == x;
      } else {
        assert r[j] == ts[j - a - 1 + b];
      }
    }
  }

  lemma VisitPositions(v: Version, d: Dialect, ts: seq<Token>, i: int)
    requires 0 <= i < |ts|
    ensures FromPositions(Visit(v, d, ts, i).0, ts)
  {
    var w := ts[i];
    if w.kind == Name {
      var r := Visit(v, d, ts, i).0;
      forall j | 0 <= j < |r|
        ensures PlacedIn(r[j], ts)
      {
        assert ts[j].line == r[j].line && ts[j].column == r[j].column;
      }
    } else if w.kind == Number && JoinsDot(ts, i) {
      SplicePositions(ts, i - 1, i + 1, NewToken(Number, ts[i - 1].line, ts[i - 1].column, ts[i - 1].text + w.text));
    } else if w.kind == Symbol && JoinsTriple(ts, i) {
      SplicePositions(ts, i, i + 3, NewToken(Symbol, w.line, w.column, w.text + ts[i + 1].text + ts[i + 2].text));
    } else if w.kind == Symbol && JoinsPair(ts, i) {
      SplicePositions(ts, i, i + 2, NewToken(Symbol, w.line, w.column, w.text + ts[i + 1].text));
    } else {
      assert Visit(v, d, ts, i).0 == ts;
      assert forall j :: 0 <= j < |ts| ==> ts[j].line == ts[j].line;
    }
  }

  lemma PositionsCompose(a: seq<Token>, b: seq<Token>, c: seq<Token>)
    requires FromPositions(a, b) && FromPositions(b, c)
    ensures FromPositions(a, c)
  {
    forall j | 0 <= j < |a|
      ensures PlacedIn(a[j], c)
    {
      assert PlacedIn(a[j], b);
      var m :| 0 <= m < |b| && b[m].line == a[j].line && b[m].column == a[j].column;
      assert PlacedIn(b[m], c);
      var k :| 0 <= k < |c| && c[k].line == b[m].line && c[k].column == b[m].column;
      assert c[k].line == a[j].line && c[k].column == a[j].column;
    }
  }

  lemma {:induction false} SweepPositions(v: Version, d: Dialect, ts: seq<Token>, i: int)
    requires 0 <= i
    ensures FromPositions(Sweep(v, d, ts, i), ts)
    decreases |ts| + 1 - i
  {
    if i < |ts| {
      var r := Visit(v, d, ts, i);
      VisitPositions(v, d, ts, i);
      SweepPositions(v, d, r.0, r.1);
      PositionsCompose(Sweep(v, d, r.0, r.1), r.0, ts);
    } else {
      assert forall j :: 0 <= j < |ts| ==> ts[j].line == ts[j].line;
    }
  }

  /** Every output token stands at the line and column of an input token: a merged
      token keeps the position of its first part. */
  lemma ClassifyKeepsPositions(v: Version, d: Dialect, raw: seq<Token>)
    ensures FromPositions(ClassifyList(v, d, raw), raw)
  {
    SweepPositions(v, d, raw, 0);
    var s := Sweep(v, d, raw, 0);
    var out := ClassifyList(v, d, raw);
    forall j | 0 <= j < |out|
      ensures PlacedIn(out[j], raw)
    {
      assert out[j].line == s[j].line && out[j].column == s[j].column;
    }
  }

  // ---------------------------------------------------------------------------
  // Kinds

  /** No name is left before index `i`. */
  predicate NamesDone(ts: seq<Token>, i: int) {
    forall j :: 0 <= j < i && j < |ts| ==> ts[j].kind != Name
  }

  lemma VisitNamesDone(d: Dialect, ts: seq<Token>, i: int)
    requires 0 <= i < |ts| && NamesDone(ts, i)
    ensures NamesDone(Visit(Intended, d, ts, i).0, Visit(Intended, d, ts, i).1)
  {
  }

  lemma {:induction false} SweepNamesDone(d: Dialect, ts: seq<Token>, i: int)
    requires 0 <= i && NamesDone(ts, i)
    ensures forall t :: t in Sweep(Intended, d, ts, i) ==> t.kind != Name
    decreases |ts| + 1 - i
  {
    if i < |ts| {
      VisitNamesDone(d, ts, i);
      SweepNamesDone(d, Visit(Intended, d, ts, i).0, Visit(Intended, d, ts, i).1);
    }
  }

  /** Every keyword token is a keyword of the dialect. */
  predicate KeywordsKnown(v: Version, d: Dialect, ts: seq<Token>) {
    forall j :: 0 <= j < |ts| && ts[j].kind == Keyword ==> IsKeyword(v, d, ts[j].text)
  }

  lemma SpliceKeywordsKnown(v: Version, d: Dialect, ts: seq<Token>, a: int, b: int, x: Token)
    requires 0 <= a <= b <= |ts| && KeywordsKnown(v, d, ts)
    requires x.kind == Keyword ==> IsKeyword(v, d, x.text)
    ensures KeywordsKnown(v, d, ts[..a] + [x] + ts[b..])
  {
    var r := ts[..a] + [x] + ts[b..];
    forall j | 0 <= j < |r| && r[j].kind == Keyword
      ensures IsKeyword(v, d, r[j].text)
    {
      if j < a {
        assert r[j] == ts[j];
      } else if j > a {
        assert r[j] == ts[j - a - 1 + b];
      }
    }
  }

  lemma VisitKeywordsKnown(v: Version, d: Dialect, ts: seq<Token>, i: int)
    requires 0 <= i < |ts| && KeywordsKnown(v, d, ts)
    ensures KeywordsKnown(v, d, Visit(v, d, ts, i).0)
  {
    var w := ts[i];
    if w.kind == Name {
      NameSplice(v, d, ts, i);
      SpliceKeywordsKnown(v, d, ts, i, i + 1, w.(kind := NameKind(v, d, ts, i)));
    } else if JoinsDot(ts, i) {
      DotSplice(v, d, ts, i);
      SpliceKeywordsKnown(v, d, ts, i - 1, i + 1, NewToken(Number, ts[i - 1].line, ts[i - 1].column, ts[i - 1].text + w.text));
    } else if JoinsTriple(ts, i) {
      TripleSplice(v, d, ts, i);
      SpliceKeywordsKnown(v, d, ts, i, i + 3, NewToken(Symbol, w.line, w.column, w.text + ts[i + 1].text + ts[i + 2].text));
    } else if JoinsPair(ts, i) {
      PairSplice(v, d, ts, i);
      SpliceKeywordsKnown(v, d, ts, i, i + 2, NewToken(Symbol, w.line, w.column, w.text + ts[i + 1].text));
    } else {
      Untouched(v, d, ts, i);
    }
  }

  lemma {:induction false} SweepKeywordsKnown(v: Version, d: Dialect, ts: seq<Token>, i: int)
    requires 0 <= i && KeywordsKnown(v, d, ts)
    ensures KeywordsKnown(v, d, Sweep(v, d, ts, i))
    decreases |ts| + 1 - i
  {
    if i < |ts| {
      VisitKeywordsKnown(v, d, ts, i);
      SweepKeywordsKnown(v, d, Visit(v, d, ts, i).0, Visit(v, d, ts, i).1);
    }
  }

  /** The token kinds after the corrected pass: no name is left, and a keyword token is
      one of the dialect's keywords and not one of the literal names. */
  lemma ClassifyKinds(d: Dialect, raw: seq<Token>)
    requires forall t :: t in raw ==> t.kind != Keyword
    ensures forall t :: t in ClassifyList(Intended, d, raw) ==>
              t.kind != Name && (t.kind == Keyword ==> t.text in Keywords(d) && t.text !in LiteralNames)
  {
    assert NamesDone(raw, 0);
    SweepNamesDone(d, raw, 0);
    SweepKeywordsKnown(Intended, d, raw, 0);
    var s := Sweep(Intended, d, raw, 0);
    forall t | t in ClassifyList(Intended, d, raw)
      ensures t.kind != Name && (t.kind == Keyword ==> t.text in Keywords(d) && t.text !in LiteralNames)
    {
      var j :| 0 <= j < |s| && ClassifyList(Intended, d, raw)[j] == t;
      assert t == Retag(s[j]) && s[j] in s;
    }
  }

  /** For whole programs: the scan yields no keyword tokens, so the classification of a
      successful scan holds no names, and its keywords are real keywords. */
  lemma ParseKinds(d: Dialect, source: string)
    ensures Parse(Intended, d, source).Tokens? ==>
              forall t :: t in Parse(Intended, d, source).list ==>
                t.kind != Name && (t.kind == Keyword ==> t.text in Keywords(d) && t.text !in LiteralNames)
  {
    TokenizeShaped(d, source);
    if Tokenize(d, source).Tokens? {
      var raw := Tokenize(d, source).list;
      assert forall t :: t in raw ==> ScannedToken(d, t);
      ClassifyKinds(d, raw);
    }
  }

  // ---------------------------------------------------------------------------
  // One visit

  /** A keyword becomes an identifier exactly when it is next to a `.` or is a key
      `{k:` / `,k:`; every other name becomes an identifier.  Nothing else changes. */
  lemma NameVisit(v: Version, d: Dialect, ts: seq<Token>, i: int)
    requires 0 <= i < |ts| && ts[i].kind == Name
    ensures var r := Visit(v, d, ts, i);
            r.1 == i + 1 && |r.0| == |ts|
            && (forall j :: 0 <= j < |ts| && j != i ==> r.0[j] == ts[j])
            && r.0[i].text == ts[i].text && r.0[i].line == ts[i].line && r.0[i].column == ts[i].column
            && (r.0[i].kind == Keyword <==> IsKeyword(v, d, ts[i].text) && !UsedAsName(ts, i))
            && (r.0[i].kind == Identifier <==> !IsKeyword(v, d, ts[i].text) || UsedAsName(ts, i))
  {
  }

  /** A number absorbs the `.` before it exactly when the dot touches it on the same
      line and is not itself preceded by anything but a symbol; the merged number stands
      where the dot stood. */
  lemma NumberVisit(v: Version, d: Dialect, ts: seq<Token>, i: int)
    requires 0 <= i < |ts| && ts[i].kind == Number
    ensures JoinsDot(ts, i) ==>
              Visit(v, d, ts, i).0 == ts[..i - 1] + [NewToken(Number, ts[i - 1].line, ts[i - 1].column, "." + ts[i].text)] + ts[i + 1..]
    ensures !JoinsDot(ts, i) ==> Visit(v, d, ts, i) == (ts, i + 1)
  {
  }

  /** The operators the merge can produce. */
  const Operators: set<string> := {"++", "--", "<<", ">>", "==", ">=", "<=", "!=", "===", "!=="}

  /** A symbol merges only with a token on its own line; the result is one of the
      operators and keeps the position of its first character. */
  lemma SymbolVisit(v: Version, d: Dialect, ts: seq<Token>, i: int)
    requires 0 <= i < |ts| && ts[i].kind == Symbol
    ensures var r := Visit(v, d, ts, i);
            r.1 == i + 1
            && (i + 1 >= |ts| || ts[i + 1].line != ts[i].line ==> r.0 == ts)
            && (r.0 != ts ==>
                  i + 1 < |ts| && ts[i + 1].line == ts[i].line
                  && r.0[..i] == ts[..i] && r.0[i].kind == Symbol && r.0[i].text in Operators
                  && r.0[i].line == ts[i].line && r.0[i].column == ts[i].column)
  {
    var r := Visit(v, d, ts, i);
    if JoinsTriple(ts, i) {
      assert r.0[i].text == ts[i].text + ts[i + 1].text + ts[i + 2].text;
      OperatorMerged(ts[i].text, ts[i + 1].text);
    } else if JoinsPair(ts, i) {
      assert r.0[i].text == ts[i].text + ts[i + 1].text;
      OperatorMerged(ts[i].text, ts[i + 1].text);
    }
  }

  lemma OperatorMerged(a: string, b: string)
    requires PairMerges(a, b)
    ensures a + b in Operators
    ensures (a == "=" || a == "!") && b == "=" ==> a + b + "=" in Operators
  {
    if a == "+" { assert a + b == "++"; }
    else if a == "-" { assert a + b == "--"; }
    else if a == "<" && b == "<" { assert a + b == "<<"; }
    else if a == ">" && b == ">" { assert a + b == ">>"; }
    else if a == "=" { assert a + b == "==" && a + b + "=" == "==="; }
    else if a == ">" { assert a + b == ">="; }
    else if a == "<" { assert a + b == "<="; }
    else { assert a + b == "!=" && a + b + "=" == "!=="; }
  }

  // ---------------------------------------------------------------------------
  // Examples

  /** As written, the token right after a merged number is never visited: in the Tea
      dialect, where no blank separates them, `.5 if` keeps `if` as a bare name. */
  lemma SkipsAfterMerge()
    ensures var raw := [NewToken(Symbol, 0, 0, "."), NewToken(Number, 0, 1, "5"), NewToken(Name, 0, 3, "if")];
            ClassifyList(AsWritten, Tea, raw) == [NewToken(Number, 0, 0, ".5"), NewToken(Name, 0, 3, "if")]
            && ClassifyList(Intended, Tea, raw) == [NewToken(Number, 0, 0, ".5"), NewToken(Keyword, 0, 3, "if")]
  {
    MergeSkipsAsWritten();
    MergeVisitsIntended();
  }

  lemma MergeSkipsAsWritten()
    ensures var raw := [NewToken(Symbol, 0, 0, "."), NewToken(Number, 0, 1, "5"), NewToken(Name, 0, 3, "if")];
            ClassifyList(AsWritten, Tea, raw) == [NewToken(Number, 0, 0, ".5"), NewToken(Name, 0, 3, "if")]
  {
    var t0 := [NewToken(Symbol, 0, 0, "."), NewToken(Number, 0, 1, "5"), NewToken(Name, 0, 3, "if")];
    var t1 := [NewToken(Number, 0, 0, ".5"), NewToken(Name, 0, 3, "if")];
    assert "." + "5" == ".5";
    assert t0[..0] + [NewToken(Number, 0, 0, ".5")] + t0[2..] == t1;
    assert Visit(AsWritten, Tea, t0, 0) == (t0, 1);
    assert Visit(AsWritten, Tea, t0, 1) == (t1, 2);
    assert Sweep(AsWritten, Tea, t1, 2) == t1;
    assert RetagAll(t1) == t1;
  }

  lemma MergeVisitsIntended()
    ensures var raw := [NewToken(Symbol, 0, 0, "."), NewToken(Number, 0, 1, "5"), NewToken(Name, 0, 3, "if")];
            ClassifyList(Intended, Tea, raw) == [NewToken(Number, 0, 0, ".5"), NewToken(Keyword, 0, 3, "if")]
  {
    var t0 := [NewToken(Symbol, 0, 0, "."), NewToken(Number, 0, 1, "5"), NewToken(Name, 0, 3, "if")];
    var t1 := [NewToken(Number, 0, 0, ".5"), NewToken(Name, 0, 3, "if")];
    var t2 := [NewToken(Number, 0, 0, ".5"), NewToken(Keyword, 0, 3, "if")];
    assert "." + "5" == ".5";
    assert t0[..0] + [NewToken(Number, 0, 0, ".5")] + t0[2..] == t1;
    assert Visit(Intended, Tea, t0, 0) == (t0, 1);
    assert Visit(Intended, Tea, t0, 1) == (t1, 1);
    assert !UsedAsName(t1, 1) && "if" in TeaKeywords;
    assert NameKind(Intended, Tea, t1, 1) == Keyword;
    assert t1[1 := t1[1].(kind := Keyword)] == t2;
    assert Visit(Intended, Tea, t1, 1) == (t2, 2);
    assert Sweep(Intended, Tea, t2, 2) == t2;
    assert Retag(t2[1]) == t2[1];
    assert RetagAll(t2) == t2;
  }

  /** The same skip in the Bright dialect: in `.5==1` the first `=` after the merged
      number is never visited, so `==` is left as two symbols. */
  lemma BrightSkipsAfterMerge()
    ensures var raw := [NewToken(Symbol, 0, 0, "."), NewToken(Number, 0, 1, "5"), NewToken(Symbol, 0, 2, "="),
                        NewToken(Symbol, 0, 3, "="), NewToken(Number, 0, 4, "1")];
            ClassifyList(AsWritten, Bright, raw)
              == [NewToken(Number, 0, 0, ".5"), NewToken(Symbol, 0, 2, "="), NewToken(Symbol, 0, 3, "="), NewToken(Number, 0, 4, "1")]
            && ClassifyList(Intended, Bright, raw)
              == [NewToken(Number, 0, 0, ".5"), NewToken(Symbol, 0, 2, "=="), NewToken(Number, 0, 4, "1")]
  {
    BrightMergeSkipsAsWritten();
    BrightMergeVisitsIntended();
  }

  lemma BrightMergeSkipsAsWritten()
    ensures var raw := [NewToken(Symbol, 0, 0, "."), NewToken(Number, 0, 1, "5"), NewToken(Symbol, 0, 2, "="),
                        NewToken(Symbol, 0, 3, "="), NewToken(Number, 0, 4, "1")];
            ClassifyList(AsWritten, Bright, raw)
              == [NewToken(Number, 0, 0, ".5"), NewToken(Symbol, 0, 2, "="), NewToken(Symbol, 0, 3, "="), NewToken(Number, 0, 4, "1")]
  {
    var t0 := [NewToken(Symbol, 0, 0, "."), NewToken(Number, 0, 1, "5"), NewToken(Symbol, 0, 2, "="),
               NewToken(Symbol, 0, 3, "="), NewToken(Number, 0, 4, "1")];
    var t1 := [NewToken(Number, 0, 0, ".5"), NewToken(Symbol, 0, 2, "="), NewToken(Symbol, 0, 3, "="), NewToken(Number, 0, 4, "1")];
    assert "." + "5" == ".5";
    assert t0[..0] + [NewToken(Number, 0, 0, ".5")] + t0[2..] == t1;
    assert !JoinsPair(t0, 0);
    assert Visit(AsWritten, Bright, t0, 0) == (t0, 1);
    assert JoinsDot(t0, 1);
    assert Visit(AsWritten, Bright, t0, 1) == (t1, 2);
    assert !JoinsPair(t1, 2);
    assert Visit(AsWritten, Bright, t1, 2) == (t1, 3);
    assert !JoinsDot(t1, 3);
    assert Visit(AsWritten, Bright, t1, 3) == (t1, 4);
    assert Sweep(AsWritten, Bright, t1, 4) == t1;
    assert RetagAll(t1) == t1;
  }

  lemma BrightMergeVisitsIntended()
    ensures var raw := [NewToken(Symbol, 0, 0, "."), NewToken(Number, 0, 1, "5"), NewToken(Symbol, 0, 2, "="),
                        NewToken(Symbol, 0, 3, "="), NewToken(Number, 0, 4, "1")];
            ClassifyList(Intended, Bright, raw)
              == [NewToken(Number, 0, 0, ".5"), NewToken(Symbol, 0, 2, "=="), NewToken(Number, 0, 4, "1")]
  {
    var t0 := [NewToken(Symbol, 0, 0, "."), NewToken(Number, 0, 1, "5"), NewToken(Symbol, 0, 2, "="),
               NewToken(Symbol, 0, 3, "="), NewToken(Number, 0, 4, "1")];
    var t1 := [NewToken(Number, 0, 0, ".5"), NewToken(Symbol, 0, 2, "="), NewToken(Symbol, 0, 3, "="), NewToken(Number, 0, 4, "1")];
    var t2 := [NewToken(Number, 0, 0, ".5"), NewToken(Symbol, 0, 2, "=="), NewToken(Number, 0, 4, "1")];
    assert "." + "5" == ".5" && "=" + "=" == "==";
    assert t0[..0] + [NewToken(Number, 0, 0, ".5")] + t0[2..] == t1;
    assert t1[..1] + [NewToken(Symbol, 0, 2, "==")] + t1[3..] == t2;
    assert !JoinsPair(t0, 0);
    assert Visit(Intended, Bright, t0, 0) == (t0, 1);
    assert JoinsDot(t0, 1);
    assert Visit(Intended, Bright, t0, 1) == (t1, 1);
    assert JoinsPair(t1, 1) && !JoinsTriple(t1, 1);
    assert Visit(Intended, Bright, t1, 1) == (t2, 2);
    assert !JoinsDot(t2, 2);
    assert Visit(Intended, Bright, t2, 2) == (t2, 3);
    assert Sweep(Intended, Bright, t2, 3) == t2;
    assert RetagAll(t2) == t2;
  }

  /** As written, a name such as `constructor` is found in the keyword table because
      every object inherits it. */
  lemma InheritedKeyword(d: Dialect)
    ensures ClassifyList(AsWritten, d, [NewToken(Name, 0, 0, "constructor")]) == [NewToken(Keyword, 0, 0, "constructor")]
    ensures ClassifyList(Intended, d, [NewToken(Name, 0, 0, "constructor")]) == [NewToken(Identifier, 0, 0, "constructor")]
  {
    var t0 := [NewToken(Name, 0, 0, "constructor")];
    assert "constructor" in ObjectMembers;
    NotAKeyword(d);
    assert !UsedAsName(t0, 0);
    var k := [NewToken(Keyword, 0, 0, "constructor")];
    var n := [NewToken(Identifier, 0, 0, "constructor")];
    assert NameKind(AsWritten, d, t0, 0) == Keyword;
    assert NameKind(Intended, d, t0, 0) == Identifier;
    assert t0[0 := t0[0].(kind := Keyword)] == k;
    assert t0[0 := t0[0].(kind := Identifier)] == n;
    assert Visit(AsWritten, d, t0, 0) == (k, 1);
    assert Visit(Intended, d, t0, 0) == (n, 1);
    assert "constructor" !in LiteralNames;
    assert RetagAll(k) == k;
    assert RetagAll(n) == n;
  }

  lemma NotAKeyword(d: Dialect)
    ensures "constructor" !in Keywords(d)
  {
    assert forall w :: w in BrightKeywords ==> |w| != 11 || w[0] != 'c';
    assert forall w :: w in TeaKeywords ==> |w| != 11 || w[0] != 'c';
  }

  /** Classifying a classified list can merge again: `..5` scans as three tokens, becomes
      `.` and `.5`, and a second run turns those into `..5`. */
  lemma NotIdempotent(v: Version, d: Dialect)
    ensures var raw := [NewToken(Symbol, 0, 0, "."), NewToken(Symbol, 0, 1, "."), NewToken(Number, 0, 2, "5")];
            var once := ClassifyList(v, d, raw);
            once == [NewToken(Symbol, 0, 0, "."), NewToken(Number, 0, 1, ".5")]
            && ClassifyList(v, d, once) == [NewToken(Number, 0, 0, "..5")]
  {
    var t0 := [NewToken(Symbol, 0, 0, "."), NewToken(Symbol, 0, 1, "."), NewToken(Number, 0, 2, "5")];
    var t1 := [NewToken(Symbol, 0, 0, "."), NewToken(Number, 0, 1, ".5")];
    var t2 := [NewToken(Number, 0, 0, "..5")];
    assert "." + "5" == ".5" && "." + ".5" == "..5";
    assert Visit(v, d, t0, 0) == (t0, 1);
    assert Visit(v, d, t0, 1) == (t0, 2);
    assert t0[..1] + [NewToken(Number, 0, 1, ".5")] + t0[3..] == t1;
    assert Visit(v, d, t0, 2).0 == t1;
    assert Sweep(v, d, t1, Visit(v, d, t0, 2).1) == t1;
    assert RetagAll(t1) == t1;
    assert Visit(v, d, t1, 0) == (t1, 1);
    assert t1[..0] + [NewToken(Number, 0, 0, "..5")] + t1[2..] == t2;
    assert Visit(v, d, t1, 1).0 == t2;
    assert Sweep(v, d, t2, Visit(v, d, t1, 1).1) == t2;
    assert RetagAll(t2) == t2;
  }
}
