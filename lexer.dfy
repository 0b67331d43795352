/** The character-driven scanner `_parse` of the current compiler (build/bright.js) and
    of the intermediate one (build/tea.js).  The two differ only in what they do with
    the whitespace runs between tokens, which `Dialect` selects. */
module Lexer {
  import opened Tokens

  datatype Dialect = Bright | Tea

  /** The scanner status (STATUS); the two comment states never get a token of their
      own status, they end in a `Comment` token. */
  datatype Status = InBlank | InSymbol | InNumber | InString | InName | InLineComment | InBlockComment

  /** The value `quoteBegin` has when no string is open. */
  const NoQuote: int := -2

  /** The scanner's variables between two iterations of its main loop. */
  datatype Scan = Scan(
    pos: int,            // curPos
    lastPos: int,        // start of the token being collected
    lineNum: int,
    linePos: int,
    tokLine: int,        // curToken.line
    tokColumn: int,      // curToken.column
    status: Status,
    quote: int,          // quoteBegin, a character code or NoQuote
    hasE: bool,
    hasDot: bool,
    hasSign: bool,
    backslash: bool,     // prevCharIsBackslash
    tokens: seq<Token>)

  /** What the scanner returns: the token list, or the thrown error record. */
  datatype LexResult = Tokens(list: seq<Token>) | LexFailure(error: string, line: int, column: int)

  datatype Stepped = Continue(scan: Scan) | Halt(error: string, line: int, column: int)

  // ---------------------------------------------------------------------------
  // Character classes, on character codes; -1 stands for the NaN that
  // charCodeAt returns past either end of the text.

  function CodeAt(src: string, i: int): (c: int)
    ensures 0 <= i < |src| ==> c == src[i] as int
    ensures !(0 <= i < |src|) ==> c == -1
  {
    if 0 <= i < |src| then src[i] as int else -1
  }

  predicate IsDigit(c: int) { 48 <= c <= 57 }

  predicate IsLetter(c: int) { (65 <= c <= 90) || (97 <= c <= 122) || c == 95 || c == 36 }

  /** NaN and every code up to the space count as blank. */
  predicate IsBlankCode(c: int) { c <= 32 }

  predicate IsQuote(c: int) { c == 39 || c == 34 }

  predicate IsNewLine(c: int) { c == 10 || c == 13 }

  /** The characters a number token can consist of. */
  predicate IsNumberChar(ch: char) {
    IsDigit(ch as int) || ch == 'e' || ch == 'E' || ch == '.' || ch == '+' || ch == '-'
  }

  predicate IsNameChar(ch: char) { IsDigit(ch as int) || IsLetter(ch as int) }

  // ---------------------------------------------------------------------------
  // Line and column tracking

  /** nextChar(c): a CR starts a new line, an LF does too unless it follows a CR,
      anything else (NaN included) advances the column. */
  function NextChar(src: string, st: Scan, c: int): (r: Scan)
    ensures r == st.(lineNum := r.lineNum, linePos := r.linePos)
  {
    if c == 13 then st.(lineNum := st.lineNum + 1, linePos := 0)
    else if c == 10 then
      if CodeAt(src, st.pos - 1) == 13 then st else st.(lineNum := st.lineNum + 1, linePos := 0)
    else st.(linePos := st.linePos + 1)
  }

  /** The line and the position within it after the first `n` characters, counted the
      way nextChar counts them; an independent definition the scanner is checked
      against. */
  function Track(src: string, n: int): (lp: (int, int))
    ensures n <= 0 ==> lp == (0, 0)
    decreases n
  {
    if n <= 0 then (0, 0)
    else
      var prev := Track(src, n - 1);
      var c := CodeAt(src, n - 1);
      if c == 13 then (prev.0 + 1, 0)
      else if c == 10 then
        if CodeAt(src, n - 2) == 13 then prev else (prev.0 + 1, 0)
      else (prev.0, prev.1 + 1)
  }

  function SetStatus(st: Scan, s: Status): (r: Scan)
    ensures r == st.(status := s, tokLine := st.lineNum, tokColumn := st.linePos - 1)
  {
    st.(status := s, tokLine := st.lineNum, tokColumn := st.linePos - 1)
  }

  // ---------------------------------------------------------------------------
  // Emitting tokens

  /** The token (if any) pushToken makes from the raw slice `w`. */
  function Emit(d: Dialect, kind: TokenKind, line: int, column: int, w: string): (ts: seq<Token>)
    ensures |ts| <= 1
    ensures d == Tea && kind == Blank ==> ts == []
    ensures kind != Blank ==> ts != []
    ensures forall t :: t in ts ==> t.kind == kind && t.line == line && !t.nested
  {
    if kind == Blank then
      match d
      case Tea => []
      case Bright =>
        var stripped := StripLineBreaks(w);
        if |stripped| > 0 then [NewToken(Blank, line, if column < 0 then 0 else column, stripped)]
        else []
    else if kind == Str then [NewToken(kind, line, column, EscapeLineBreaks(Trim(w)))]
    else [NewToken(kind, line, column, Trim(w))]
  }

  /** pushToken(t): emits the slice from lastPos up to pos (exclusive) and resets the
      per-token flags. */
  function Push(d: Dialect, src: string, st: Scan, kind: TokenKind): (r: Scan)
    requires 0 <= st.lastPos && st.pos <= |src|
    ensures r.pos == st.pos && r.lastPos == st.pos
    ensures r.lineNum == st.lineNum && r.linePos == st.linePos && r.status == st.status
    ensures r.tokLine == st.tokLine && r.tokColumn == st.tokColumn
    ensures r.quote == NoQuote && !r.hasE && !r.hasDot && !r.hasSign && !r.backslash
    ensures r.tokens == st.tokens + (if st.lastPos < st.pos
                                     then Emit(d, kind, st.tokLine, st.tokColumn, src[st.lastPos..st.pos])
                                     else [])
  {
    var emitted := if st.lastPos < st.pos
                   then Emit(d, kind, st.tokLine, st.tokColumn, src[st.lastPos..st.pos])
                   else [];
    st.(tokens := st.tokens + emitted, lastPos := st.pos, quote := NoQuote,
        hasE := false, hasDot := false, hasSign := false, backslash := false)
  }

  /** checkNextChar(): classifies the character at pos without the string check. */
  function CheckNextChar(src: string, st: Scan): (r: Scan)
  {
    var c := CodeAt(src, st.pos);
    var t := NextChar(src, st, c);
    SetStatus(t, if IsDigit(c) then InNumber
                 else if IsLetter(c) then InName
                 else if IsBlankCode(c) then InBlank
                 else InSymbol)
  }

  /** The loop's own `curPos++`. */
  function Advance(st: Scan): (r: Stepped)
    ensures r.Continue? && r.scan == st.(pos := st.pos + 1)
  {
    Continue(st.(pos := st.pos + 1))
  }

  /** throwError(msg), with the position of the character just read. */
  function Throw(st: Scan, msg: string): (r: Stepped)
    ensures r.Halt? && r.error == "SyntaxError: " + msg
    ensures r.line == st.lineNum && r.column == st.linePos - 1
  {
    Halt("SyntaxError: " + msg, st.lineNum, st.linePos - 1)
  }

  // ---------------------------------------------------------------------------
  // One iteration of the main loop

  predicate Ready(src: string, st: Scan) {
    0 <= st.lastPos <= st.pos < |src|
  }

  /** What every branch of the loop body promises about the position. */
  predicate Moves(src: string, st: Scan, r: Stepped) {
    r.Continue? ==> r.scan.pos > st.pos && 0 <= r.scan.lastPos <= r.scan.pos <= |src| + 1 && r.scan.lastPos <= |src|
  }

  function Step(d: Dialect, src: string, st: Scan): (r: Stepped)
    requires Ready(src, st)
    ensures Moves(src, st, r)
  {
    var c := CodeAt(src, st.pos);
    var t := NextChar(src, st, c);
    match t.status
    case InBlank => InBlankStep(d, src, t, c)
    case InNumber => InNumberStep(d, src, t, c)
    case InName => InNameStep(d, src, t, c)
    case InSymbol => InSymbolStep(d, src, t, c)
    case InString => InStringStep(d, src, t, c)
    case InLineComment => InLineCommentStep(d, src, t, c)
    case InBlockComment => InBlockCommentStep(d, src, t, c)
  }

  function InBlankStep(d: Dialect, src: string, t: Scan, c: int): (r: Stepped)
    requires Ready(src, t)
    ensures Moves(src, t, r)
  {
    if IsDigit(c) then Advance(SetStatus(Push(d, src, t, Blank), InNumber))
    else if IsLetter(c) then Advance(SetStatus(Push(d, src, t, Blank), InName))
    else if IsQuote(c) then Advance(SetStatus(Push(d, src, t, Blank).(quote := c), InString))
    else if IsBlankCode(c) then Advance(t)
    else Advance(SetStatus(Push(d, src, t, Blank), InSymbol))
  }

  function InNumberStep(d: Dialect, src: string, t: Scan, c: int): (r: Stepped)
    requires Ready(src, t)
    ensures Moves(src, t, r)
  {
    var s := src[t.pos];
    if IsDigit(c) then Advance(t)
    else if IsLetter(c) then
      if !t.hasE && (s == 'e' || s == 'E') then
        Advance(t.(hasE := true, hasSign := false, hasDot := false))
      else Throw(t, "Unexpected token " + [s])
    else if IsBlankCode(c) then Advance(SetStatus(Push(d, src, t, Number), InBlank))
    else if s == '.' then
      if t.hasDot then Throw(t, "Unexpected token " + [s]) else Advance(t.(hasDot := true))
    else if (t.hasE && s == '+') || s == '-' then
      if t.hasSign then Throw(t, "Unexpected token " + [s]) else Advance(t.(hasSign := true))
    else Advance(SetStatus(Push(d, src, t, Number), InSymbol))
  }

  function InNameStep(d: Dialect, src: string, t: Scan, c: int): (r: Stepped)
    requires Ready(src, t)
    ensures Moves(src, t, r)
  {
    if IsDigit(c) || IsLetter(c) then Advance(t)
    else if IsBlankCode(c) then Advance(SetStatus(Push(d, src, t, Name), InBlank))
    else if src[t.pos] == '_' then Advance(t)
    else Advance(SetStatus(Push(d, src, t, Name), InSymbol))
  }

  function InSymbolStep(d: Dialect, src: string, t: Scan, c: int): (r: Stepped)
    requires Ready(src, t)
    ensures Moves(src, t, r)
  {
    var pc := CodeAt(src, t.pos - 1);
    if c == 47 && pc == 47 then Advance(t.(status := InLineComment))
    else if pc == 47 && c == 42 then Advance(t.(status := InBlockComment))
    else
      var u := Push(d, src, t, Symbol);
      if IsDigit(c) then Advance(SetStatus(u, InNumber))
      else if IsLetter(c) then Advance(SetStatus(u, InName))
      else if IsBlankCode(c) then Advance(SetStatus(u, InBlank))
      else if IsQuote(c) then Advance(SetStatus(u.(quote := c), InString))
      else Advance(SetStatus(u, InSymbol))
  }

  /** The quote that opened a string, not escaped, closes it. */
  predicate StringEnds(t: Scan, c: int) {
    c == t.quote && !t.backslash
  }

  function InStringStep(d: Dialect, src: string, t: Scan, c: int): (r: Stepped)
    requires Ready(src, t)
    ensures Moves(src, t, r)
  {
    if StringEnds(t, c) then
      Advance(CheckNextChar(src, Push(d, src, t.(pos := t.pos + 1), Str)))
    else if c == 92 then Advance(t.(backslash := !t.backslash))
    else if t.backslash then Advance(t.(backslash := false))
    else Advance(t)
  }

  /** A line comment ends at a line break or two characters before the end. */
  predicate LineEnds(src: string, t: Scan, c: int) {
    IsNewLine(c) || t.pos >= |src| - 2
  }

  /** A block comment ends at a star followed by a slash. */
  predicate BlockEnds(src: string, t: Scan, c: int) {
    c == 42 && CodeAt(src, t.pos + 1) == 47
  }

  function InLineCommentStep(d: Dialect, src: string, t: Scan, c: int): (r: Stepped)
    requires Ready(src, t)
    ensures Moves(src, t, r)
  {
    if LineEnds(src, t, c) then
      Advance(CheckNextChar(src, Push(d, src, t.(pos := t.pos + 1), Comment)))
    else Advance(t)
  }

  function InBlockCommentStep(d: Dialect, src: string, t: Scan, c: int): (r: Stepped)
    requires Ready(src, t)
    ensures Moves(src, t, r)
  {
    if BlockEnds(src, t, c) then
      // the closing slash is counted by a nextChar() made without an argument
      Advance(CheckNextChar(src, NextChar(src, Push(d, src, t.(pos := t.pos + 2), Comment), -1)))
    else Advance(t)
  }

  // ---------------------------------------------------------------------------
  // The whole scan

  predicate Bounded(src: string, st: Scan) {
    0 <= st.lastPos <= st.pos <= |src| + 1 && st.lastPos <= |src|
  }

  const Start: Scan := Scan(0, 0, 0, 0, 0, 0, InBlank, NoQuote, false, false, false, false, [])

  /** After the loop: anything but the blank status means the text ended inside a
      token. */
  function Finish(st: Scan): (r: LexResult)
    ensures r.Tokens? <==> st.status == InBlank
    ensures r.Tokens? ==> r.list == st.tokens
  {
    if st.status != InBlank
    then LexFailure("SyntaxError: Unexpected end of input", st.lineNum, st.linePos - 1)
    else Tokens(st.tokens)
  }

  /** The scan from state `st` to the end of `src`. */
  function Run(d: Dialect, src: string, st: Scan): LexResult
    requires Bounded(src, st)
    decreases |src| + 2 - st.pos
  {
    if st.pos >= |src| then Finish(st)
    else
      match Step(d, src, st)
      case Halt(e, l, c) => LexFailure(e, l, c)
      case Continue(next) => Run(d, src, next)
  }

  /** `_parse(source)`: a blank is appended so that the last token is always closed. */
  function Tokenize(d: Dialect, source: string): LexResult
  {
    Run(d, source + " ", Start)
  }

  /** The scanner loop itself. */
  method Lex(d: Dialect, source: string) returns (r: LexResult)
    ensures r == Tokenize(d, source)
  {
    var src := source + " ";
    var st := Start;
    while st.pos < |src|
      invariant Bounded(src, st)
      invariant Run(d, src, st) == Tokenize(d, source)
      decreases |src| + 2 - st.pos
    {
      match Step(d, src, st)
      case Halt(e, l, c) =>
        return LexFailure(e, l, c);
      case Continue(next) =>
        st := next;
    }
    r := Finish(st);
  }
}

/** Facts about the scanner's output. */
module LexerFacts {
  import opened Tokens
  import opened Lexer

  /** The shape every token `_parse` emits has: one character per symbol, numbers and
      names made of their own character classes, strings still enclosed in their
      quotes with raw line breaks escaped, comments still starting with their
      delimiter, and blank tokens only in the current compiler, non-empty and free of
      line breaks. */
  predicate ScannedToken(d: Dialect, t: Token) {
    !t.nested &&
    match t.kind
    case Blank => d == Bright && t.text != [] && t.column >= 0 && '\n' !in t.text && '\r' !in t.text
    case Symbol => |t.text| <= 1 && (t.text != [] ==> !IsJsWhitespace(t.text[0]))
    case Number =>
      t.text != [] && IsDigit(t.text[0] as int) && forall i :: 0 <= i < |t.text| ==> IsNumberChar(t.text[i])
    case Str =>
      |t.text| >= 2 && IsQuote(t.text[0] as int) && t.text[|t.text| - 1] == t.text[0]
      && '\n' !in t.text && '\r' !in t.text
    case Name =>
      t.text != [] && IsLetter(t.text[0] as int) && forall i :: 0 <= i < |t.text| ==> IsNameChar(t.text[i])
    case Comment => |t.text| >= 2 && t.text[0] == '/' && (t.text[1] == '/' || t.text[1] == '*')
    case Keyword => false
    case Identifier => false
  }

  predicate AllScanned(d: Dialect, ts: seq<Token>) {
    forall t :: t in ts ==> ScannedToken(d, t)
  }

  /** What the scanner knows about the token it is collecting, by status. */
  predicate Collecting(src: string, st: Scan) {
    0 <= st.lastPos
    && (st.status == InSymbol ==> st.pos == st.lastPos + 1 && st.pos <= |src|)
    && (st.status == InNumber ==>
          st.lastPos < st.pos <= |src| && IsDigit(src[st.lastPos] as int)
          && forall k :: st.lastPos <= k < st.pos ==> IsNumberChar(src[k]))
    && (st.status == InName ==>
          st.lastPos < st.pos <= |src| && IsLetter(src[st.lastPos] as int)
          && forall k :: st.lastPos <= k < st.pos ==> IsNameChar(src[k]))
    && (st.status == InString ==>
          st.lastPos < st.pos <= |src| && IsQuote(st.quote) && src[st.lastPos] as int == st.quote)
    && (st.status == InLineComment ==>
          st.lastPos + 2 <= st.pos <= |src| && src[st.lastPos] == '/' && src[st.lastPos + 1] == '/')
    && (st.status == InBlockComment ==>
          st.lastPos + 2 <= st.pos <= |src| && src[st.lastPos] == '/' && src[st.lastPos + 1] == '*')
  }

  predicate Shaped(d: Dialect, src: string, st: Scan) {
    Bounded(src, st) && Collecting(src, st) && AllScanned(d, st.tokens)
  }

  lemma TrimUnchanged(s: string)
    requires s != [] && !IsJsWhitespace(s[0]) && !IsJsWhitespace(s[|s| - 1])
    ensures Trim(s) == s
  {
  }

  lemma EmitNumberShaped(d: Dialect, line: int, column: int, w: string)
    requires w != [] && IsDigit(w[0] as int) && forall k :: 0 <= k < |w| ==> IsNumberChar(w[k])
    ensures AllScanned(d, Emit(d, Number, line, column, w))
  {
    assert IsNumberChar(w[|w| - 1]);
    TrimUnchanged(w);
  }

  lemma EmitNameShaped(d: Dialect, line: int, column: int, w: string)
    requires w != [] && IsLetter(w[0] as int) && forall k :: 0 <= k < |w| ==> IsNameChar(w[k])
    ensures AllScanned(d, Emit(d, Name, line, column, w))
  {
    assert IsNameChar(w[|w| - 1]);
    TrimUnchanged(w);
  }

  lemma EmitStrShaped(d: Dialect, line: int, column: int, w: string)
    requires |w| >= 2 && IsQuote(w[0] as int) && w[|w| - 1] == w[0]
    ensures AllScanned(d, Emit(d, Str, line, column, w))
  {
    TrimUnchanged(w);
  }

  lemma EmitCommentShaped(d: Dialect, line: int, column: int, w: string)
    requires |w| >= 2 && w[0] == '/' && (w[1] == '/' || w[1] == '*')
    ensures AllScanned(d, Emit(d, Comment, line, column, w))
  {
    assert TrimLeft(w) == w;
    var r := TrimRight(w);
    assert !IsJsWhitespace(w[1]);
    assert 1 < |r| && r == w[..|r|];
    assert r[0] == w[0] && r[1] == w[1];
    assert Trim(w) == r;
    assert Emit(d, Comment, line, column, w) == [NewToken(Comment, line, column, r)];
  }

  lemma EmitSymbolShaped(d: Dialect, line: int, column: int, w: string)
    requires |w| == 1
    ensures AllScanned(d, Emit(d, Symbol, line, column, w))
  {
  }

  lemma EmitBlankShaped(d: Dialect, line: int, column: int, w: string)
    ensures AllScanned(d, Emit(d, Blank, line, column, w))
  {
  }

  /** The slice from lastPos to pos has the shape of the token kind being pushed. */
  predicate SliceFits(src: string, st: Scan, kind: TokenKind)
    requires 0 <= st.lastPos && st.pos <= |src|
  {
    match kind
    case Blank => true
    case Symbol => st.pos == st.lastPos + 1
    case Number =>
      st.lastPos < st.pos && IsDigit(src[st.lastPos] as int)
      && forall k :: st.lastPos <= k < st.pos ==> IsNumberChar(src[k])
    case Name =>
      st.lastPos < st.pos && IsLetter(src[st.lastPos] as int)
      && forall k :: st.lastPos <= k < st.pos ==> IsNameChar(src[k])
    case Str =>
      st.lastPos + 2 <= st.pos && IsQuote(src[st.lastPos] as int) && src[st.pos - 1] == src[st.lastPos]
    case Comment =>
      st.lastPos + 2 <= st.pos && src[st.lastPos] == '/' && (src[st.lastPos + 1] == '/' || src[st.lastPos + 1] == '*')
    case _ => false
  }

  /** Pushing a slice that fits its kind adds a well-shaped token. */
  lemma PushShaped(d: Dialect, src: string, st: Scan, kind: TokenKind)
    requires 0 <= st.lastPos <= st.pos <= |src| && AllScanned(d, st.tokens) && SliceFits(src, st, kind)
    ensures AllScanned(d, Push(d, src, st, kind).tokens)
  {
    if st.lastPos < st.pos {
      var w := src[st.lastPos..st.pos];
      var e := Emit(d, kind, st.tokLine, st.tokColumn, w);
      assert Push(d, src, st, kind).tokens == st.tokens + e;
      EmitShaped(d, src, st, kind);
    }
  }

  lemma EmitShaped(d: Dialect, src: string, st: Scan, kind: TokenKind)
    requires 0 <= st.lastPos < st.pos <= |src| && SliceFits(src, st, kind)
    ensures AllScanned(d, Emit(d, kind, st.tokLine, st.tokColumn, src[st.lastPos..st.pos]))
  {
    var w := src[st.lastPos..st.pos];
    assert w[0] == src[st.lastPos];
    match kind
    case Number =>
      assert forall k :: 0 <= k < |w| ==> w[k] == src[st.lastPos + k];
      EmitNumberShaped(d, st.tokLine, st.tokColumn, w);
    case Name =>
      assert forall k :: 0 <= k < |w| ==> w[k] == src[st.lastPos + k];
      EmitNameShaped(d, st.tokLine, st.tokColumn, w);
    case Str =>
      assert w[|w| - 1] == src[st.pos - 1];
      EmitStrShaped(d, st.tokLine, st.tokColumn, w);
    case Comment =>
      assert w[1] == src[st.lastPos + 1];
      EmitCommentShaped(d, st.tokLine, st.tokColumn, w);
    case Symbol =>
      EmitSymbolShaped(d, st.tokLine, st.tokColumn, w);
    case Blank =>
      EmitBlankShaped(d, st.tokLine, st.tokColumn, w);
  }

  /** A fresh token started at pos: the state Advance(SetStatus(..)) leaves behind. */
  lemma OpenShaped(d: Dialect, src: string, u: Scan, s: Status)
    requires 0 <= u.lastPos == u.pos < |src| && AllScanned(d, u.tokens)
    requires s == InNumber ==> IsDigit(src[u.pos] as int)
    requires s == InName ==> IsLetter(src[u.pos] as int)
    requires s == InString ==> IsQuote(u.quote) && src[u.pos] as int == u.quote
    requires s != InLineComment && s != InBlockComment
    ensures Shaped(d, src, Advance(SetStatus(u, s)).scan)
  {
  }

  /** CheckNextChar after a push opens a token at the new position. */
  lemma CheckNextShaped(d: Dialect, src: string, u: Scan)
    requires 0 <= u.lastPos == u.pos <= |src| && AllScanned(d, u.tokens)
    ensures Shaped(d, src, Advance(CheckNextChar(src, u)).scan)
  {
  }

  lemma InBlankShaped(d: Dialect, src: string, t: Scan, c: int)
    requires Shaped(d, src, t) && Ready(src, t) && t.status == InBlank && c == CodeAt(src, t.pos)
    ensures InBlankStep(d, src, t, c).Continue? ==> Shaped(d, src, InBlankStep(d, src, t, c).scan)
  {
    var u := Push(d, src, t, Blank);
    PushShaped(d, src, t, Blank);
    if IsDigit(c) {
      OpenShaped(d, src, u, InNumber);
    } else if IsLetter(c) {
      OpenShaped(d, src, u, InName);
    } else if IsQuote(c) {
      OpenShaped(d, src, u.(quote := c), InString);
    } else if !IsBlankCode(c) {
      OpenShaped(d, src, u, InSymbol);
    }
  }

  /** A step that only moves past the current character and changes flags. */
  predicate Kept(t: Scan, u: Scan) {
    u.pos == t.pos + 1 && u.lastPos == t.lastPos && u.lineNum == t.lineNum && u.linePos == t.linePos
    && u.tokLine == t.tokLine && u.tokColumn == t.tokColumn && u.tokens == t.tokens
    && u.status == t.status && u.quote == t.quote
  }

  /** The outcomes of reading a character inside a number. */
  predicate NumberOutcome(d: Dialect, src: string, t: Scan, c: int, r: Stepped)
    requires Ready(src, t)
  {
    (!IsBlankCode(c) && r == Throw(t, "Unexpected token " + [src[t.pos]]))
    || (r.Continue? && Kept(t, r.scan) && IsNumberChar(src[t.pos]))
    || (IsBlankCode(c) && r == Advance(SetStatus(Push(d, src, t, Number), InBlank)))
    || (!IsBlankCode(c) && r == Advance(SetStatus(Push(d, src, t, Number), InSymbol)))
  }

  lemma NumberCases(d: Dialect, src: string, t: Scan, c: int)
    requires Ready(src, t) && c == CodeAt(src, t.pos)
    ensures NumberOutcome(d, src, t, c, InNumberStep(d, src, t, c))
  {
    var s := src[t.pos];
    if IsDigit(c) {
      assert IsNumberChar(s);
    } else if IsLetter(c) {
      NumberLetterCases(d, src, t, c);
    } else if IsBlankCode(c) {
    } else {
      NumberOtherCases(d, src, t, c);
    }
  }

  lemma NumberLetterCases(d: Dialect, src: string, t: Scan, c: int)
    requires Ready(src, t) && c == CodeAt(src, t.pos) && IsLetter(c) && !IsDigit(c)
    ensures NumberOutcome(d, src, t, c, InNumberStep(d, src, t, c))
  {
  }

  lemma NumberOtherCases(d: Dialect, src: string, t: Scan, c: int)
    requires Ready(src, t) && c == CodeAt(src, t.pos) && !IsLetter(c) && !IsDigit(c) && !IsBlankCode(c)
    ensures NumberOutcome(d, src, t, c, InNumberStep(d, src, t, c))
  {
  }

  lemma InNumberShaped(d: Dialect, src: string, t: Scan, c: int)
    requires Shaped(d, src, t) && Ready(src, t) && t.status == InNumber && c == CodeAt(src, t.pos)
    ensures InNumberStep(d, src, t, c).Continue? ==> Shaped(d, src, InNumberStep(d, src, t, c).scan)
  {
    NumberCases(d, src, t, c);
    var r := InNumberStep(d, src, t, c);
    if r.Continue? && !Kept(t, r.scan) {
      PushShaped(d, src, t, Number);
      var u := Push(d, src, t, Number);
      if IsBlankCode(c) {
        OpenShaped(d, src, u, InBlank);
      } else {
        OpenShaped(d, src, u, InSymbol);
      }
    }
  }

  lemma InNameShaped(d: Dialect, src: string, t: Scan, c: int)
    requires Shaped(d, src, t) && Ready(src, t) && t.status == InName && c == CodeAt(src, t.pos)
    ensures InNameStep(d, src, t, c).Continue? ==> Shaped(d, src, InNameStep(d, src, t, c).scan)
  {
    if !(IsDigit(c) || IsLetter(c)) {
      PushShaped(d, src, t, Name);
      var u := Push(d, src, t, Name);
      if IsBlankCode(c) {
        OpenShaped(d, src, u, InBlank);
      } else {
        OpenShaped(d, src, u, InSymbol);
      }
    }
  }

  lemma InSymbolShaped(d: Dialect, src: string, t: Scan, c: int)
    requires Shaped(d, src, t) && Ready(src, t) && t.status == InSymbol && c == CodeAt(src, t.pos)
    ensures InSymbolStep(d, src, t, c).Continue? ==> Shaped(d, src, InSymbolStep(d, src, t, c).scan)
  {
    var pc := CodeAt(src, t.pos - 1);
    if c == 47 && pc == 47 {
    } else if pc == 47 && c == 42 {
    } else {
      PushShaped(d, src, t, Symbol);
      var u := Push(d, src, t, Symbol);
      if IsDigit(c) {
        OpenShaped(d, src, u, InNumber);
      } else if IsLetter(c) {
        OpenShaped(d, src, u, InName);
      } else if IsBlankCode(c) {
        OpenShaped(d, src, u, InBlank);
      } else if IsQuote(c) {
        OpenShaped(d, src, u.(quote := c), InString);
      } else {
        OpenShaped(d, src, u, InSymbol);
      }
    }
  }

  lemma InStringShaped(d: Dialect, src: string, t: Scan, c: int)
    requires Shaped(d, src, t) && Ready(src, t) && t.status == InString && c == CodeAt(src, t.pos)
    ensures InStringStep(d, src, t, c).Continue? ==> Shaped(d, src, InStringStep(d, src, t, c).scan)
  {
    if StringEnds(t, c) {
      StringCloseShaped(d, src, t, c);
    } else {
      StringKeeps(d, src, t, c);
      KeptShaped(d, src, t, InStringStep(d, src, t, c).scan);
    }
  }

  lemma StringCloseShaped(d: Dialect, src: string, t: Scan, c: int)
    requires 0 <= t.lastPos < t.pos < |src| && AllScanned(d, t.tokens)
    requires IsQuote(t.quote) && src[t.lastPos] as int == t.quote
    requires c == CodeAt(src, t.pos) && StringEnds(t, c)
    ensures Shaped(d, src, InStringStep(d, src, t, c).scan)
  {
    var v := t.(pos := t.pos + 1);
    StringCloseStep(d, src, t, c);
    StringSliceFits(src, t, v);
    CloseShaped(d, src, v, Str, Push(d, src, v, Str));
  }

  lemma StringSliceFits(src: string, t: Scan, v: Scan)
    requires 0 <= t.lastPos < t.pos < |src| && IsQuote(t.quote) && src[t.lastPos] as int == t.quote
    requires CodeAt(src, t.pos) == t.quote && v.lastPos == t.lastPos && v.pos == t.pos + 1
    ensures SliceFits(src, v, Str)
  {
  }

  lemma StringCloseStep(d: Dialect, src: string, t: Scan, c: int)
    requires Ready(src, t) && StringEnds(t, c)
    ensures InStringStep(d, src, t, c) == Advance(CheckNextChar(src, Push(d, src, t.(pos := t.pos + 1), Str)))
  {
  }

  lemma InLineCommentShaped(d: Dialect, src: string, t: Scan, c: int)
    requires Shaped(d, src, t) && Ready(src, t) && t.status == InLineComment && c == CodeAt(src, t.pos)
    ensures InLineCommentStep(d, src, t, c).Continue? ==> Shaped(d, src, InLineCommentStep(d, src, t, c).scan)
  {
    if LineEnds(src, t, c) {
      LineCloseShaped(d, src, t, c);
    } else {
      LineKeptShaped(d, src, t, c);
    }
  }

  lemma LineCloseShaped(d: Dialect, src: string, t: Scan, c: int)
    requires Shaped(d, src, t) && Ready(src, t) && t.status == InLineComment
    requires LineEnds(src, t, c)
    ensures Shaped(d, src, InLineCommentStep(d, src, t, c).scan)
  {
    var v := t.(pos := t.pos + 1);
    LineCloseStep(d, src, t, c);
    assert SliceFits(src, v, Comment);
    CloseShaped(d, src, v, Comment, Push(d, src, v, Comment));
  }

  lemma LineCloseStep(d: Dialect, src: string, t: Scan, c: int)
    requires Ready(src, t) && LineEnds(src, t, c)
    ensures InLineCommentStep(d, src, t, c) == Advance(CheckNextChar(src, Push(d, src, t.(pos := t.pos + 1), Comment)))
  {
  }

  lemma LineKeptShaped(d: Dialect, src: string, t: Scan, c: int)
    requires Shaped(d, src, t) && Ready(src, t) && t.status == InLineComment
    requires !LineEnds(src, t, c)
    ensures Shaped(d, src, InLineCommentStep(d, src, t, c).scan)
  {
    KeptShaped(d, src, t, Advance(t).scan);
  }

  lemma InBlockCommentShaped(d: Dialect, src: string, t: Scan, c: int)
    requires Shaped(d, src, t) && Ready(src, t) && t.status == InBlockComment && c == CodeAt(src, t.pos)
    ensures InBlockCommentStep(d, src, t, c).Continue? ==> Shaped(d, src, InBlockCommentStep(d, src, t, c).scan)
  {
    if BlockEnds(src, t, c) {
      BlockCloseShaped(d, src, t, c);
    } else {
      BlockKeptShaped(d, src, t, c);
    }
  }

  lemma BlockCloseShaped(d: Dialect, src: string, t: Scan, c: int)
    requires Shaped(d, src, t) && Ready(src, t) && t.status == InBlockComment
    requires BlockEnds(src, t, c)
    ensures Shaped(d, src, InBlockCommentStep(d, src, t, c).scan)
  {
    var v := t.(pos := t.pos + 2);
    BlockCloseStep(d, src, t, c);
    assert SliceFits(src, v, Comment);
    CloseShaped(d, src, v, Comment, NextChar(src, Push(d, src, v, Comment), -1));
  }

  lemma BlockCloseStep(d: Dialect, src: string, t: Scan, c: int)
    requires Ready(src, t) && BlockEnds(src, t, c)
    ensures InBlockCommentStep(d, src, t, c)
         == Advance(CheckNextChar(src, NextChar(src, Push(d, src, t.(pos := t.pos + 2), Comment), -1)))
  {
  }

  lemma BlockKeptShaped(d: Dialect, src: string, t: Scan, c: int)
    requires Shaped(d, src, t) && Ready(src, t) && t.status == InBlockComment
    requires !BlockEnds(src, t, c)
    ensures Shaped(d, src, InBlockCommentStep(d, src, t, c).scan)
  {
    BlockKeeps(d, src, t, c);
    KeptShaped(d, src, t, InBlockCommentStep(d, src, t, c).scan);
  }

  /** Pushing a slice that fits its kind, and counting zero or more characters
      without moving, opens a fresh token. */
  lemma CloseShaped(d: Dialect, src: string, v: Scan, kind: TokenKind, u: Scan)
    requires 0 <= v.lastPos <= v.pos <= |src| && AllScanned(d, v.tokens) && SliceFits(src, v, kind)
    requires u.pos == v.pos && u.lastPos == v.pos && u.tokens == Push(d, src, v, kind).tokens
    ensures Shaped(d, src, Advance(CheckNextChar(src, u)).scan)
  {
    PushShaped(d, src, v, kind);
    CheckNextShaped(d, src, u);
  }

  /** Reading one more character of a string or a comment keeps the scan well shaped. */
  lemma KeptShaped(d: Dialect, src: string, t: Scan, u: Scan)
    requires Shaped(d, src, t) && Ready(src, t) && Kept(t, u)
    requires t.status == InString || t.status == InLineComment || t.status == InBlockComment
    ensures Shaped(d, src, u)
  {
  }

  lemma StepShaped(d: Dialect, src: string, st: Scan)
    requires Shaped(d, src, st) && Ready(src, st)
    ensures Step(d, src, st).Continue? ==> Shaped(d, src, Step(d, src, st).scan)
  {
    var c := CodeAt(src, st.pos);
    var t := NextChar(src, st, c);
    match t.status
    case InBlank => InBlankShaped(d, src, t, c);
    case InNumber => InNumberShaped(d, src, t, c);
    case InName => InNameShaped(d, src, t, c);
    case InSymbol => InSymbolShaped(d, src, t, c);
    case InString => InStringShaped(d, src, t, c);
    case InLineComment => InLineCommentShaped(d, src, t, c);
    case InBlockComment => InBlockCommentShaped(d, src, t, c);
  }

  lemma {:induction false} RunShaped(d: Dialect, src: string, st: Scan)
    requires Shaped(d, src, st)
    ensures Run(d, src, st).Tokens? ==> AllScanned(d, Run(d, src, st).list)
    decreases |src| + 2 - st.pos
  {
    if st.pos < |src| {
      StepShaped(d, src, st);
      if Step(d, src, st).Continue? {
        RunShaped(d, src, Step(d, src, st).scan);
      }
    }
  }

  /** Every token either scanner returns has the shape of its kind. */
  lemma TokenizeShaped(d: Dialect, source: string)
    ensures Tokenize(d, source).Tokens? ==>
              forall t :: t in Tokenize(d, source).list ==> ScannedToken(d, t)
  {
    RunShaped(d, source + " ", Start);
  }

  /** The intermediate compiler drops every whitespace run. */
  lemma TeaDropsBlanks(source: string)
    ensures Tokenize(Tea, source).Tokens? ==>
              forall t :: t in Tokenize(Tea, source).list ==> t.kind != Blank
  {
    TokenizeShaped(Tea, source);
  }

  // ---------------------------------------------------------------------------
  // Positions

  /** `k` is the index of the first character of token `t`: the token carries the
      line and column of that character, and its text starts with it. */
  predicate StartsAt(src: string, t: Token, k: int) {
    0 <= k < |src| && Track(src, k + 1) == (t.line, t.column + 1)
    && (t.text != [] ==> t.text[0] == src[k])
  }

  ghost predicate AllPlaced(src: string, ts: seq<Token>) {
    forall t :: t in ts && t.kind != Blank ==> exists k :: StartsAt(src, t, k)
  }

  /** The scanner's line counters agree with Track, and the recorded start of the
      token being collected is the position of its first character. */
  ghost predicate Placed(src: string, st: Scan) {
    (st.lineNum, st.linePos) == Track(src, st.pos)
    && (st.status != InBlank ==> (st.tokLine, st.tokColumn + 1) == Track(src, st.lastPos + 1))
    && AllPlaced(src, st.tokens)
  }

  lemma NextCharTracks(src: string, st: Scan)
    requires (st.lineNum, st.linePos) == Track(src, st.pos) && st.pos >= 0
    ensures var t := NextChar(src, st, CodeAt(src, st.pos));
            (t.lineNum, t.linePos) == Track(src, st.pos + 1)
  {
  }

  lemma EmitPlaced(src: string, st: Scan, kind: TokenKind, d: Dialect)
    requires 0 <= st.lastPos < st.pos <= |src| && kind != Blank
    requires (st.tokLine, st.tokColumn + 1) == Track(src, st.lastPos + 1)
    requires st.pos == st.lastPos + 1 || !IsJsWhitespace(src[st.lastPos])
    ensures forall t :: t in Emit(d, kind, st.tokLine, st.tokColumn, src[st.lastPos..st.pos]) ==>
              StartsAt(src, t, st.lastPos)
  {
    EmitStarts(src, st.lastPos, st.tokLine, st.tokColumn, src[st.lastPos..st.pos], kind, d);
  }

  lemma EmitStarts(src: string, k: int, line: int, column: int, w: string, kind: TokenKind, d: Dialect)
    requires 0 <= k < |src| && Track(src, k + 1) == (line, column + 1) && kind != Blank
    requires w != [] && w[0] == src[k] && (|w| == 1 || !IsJsWhitespace(w[0]))
    ensures forall t :: t in Emit(d, kind, line, column, w) ==> StartsAt(src, t, k)
  {
    var text := if kind == Str then EscapeLineBreaks(Trim(w)) else Trim(w);
    EmitOne(d, kind, line, column, w, text);
    TrimmedFirst(w);
    assert StartsAt(src, NewToken(kind, line, column, text), k);
  }

  lemma EmitOne(d: Dialect, kind: TokenKind, line: int, column: int, w: string, text: string)
    requires kind != Blank && text == if kind == Str then EscapeLineBreaks(Trim(w)) else Trim(w)
    ensures Emit(d, kind, line, column, w) == [NewToken(kind, line, column, text)]
  {
  }

  /** The text pushToken keeps from a slice starts with the slice's first character. */
  lemma TrimmedFirst(w: string)
    requires w != [] && (|w| == 1 || !IsJsWhitespace(w[0]))
    ensures Trim(w) != [] ==> Trim(w)[0] == w[0]
    ensures EscapeLineBreaks(Trim(w)) != [] ==> EscapeLineBreaks(Trim(w))[0] == w[0]
  {
    if !IsJsWhitespace(w[0]) {
      TrimKeepsFirst(w);
    } else {
      assert TrimLeft(w) == [];
    }
  }

  lemma PushPlaced(d: Dialect, src: string, st: Scan, kind: TokenKind)
    requires 0 <= st.lastPos <= st.pos <= |src| && AllPlaced(src, st.tokens)
    requires kind != Blank && st.lastPos < st.pos ==>
               (st.tokLine, st.tokColumn + 1) == Track(src, st.lastPos + 1)
               && (st.pos == st.lastPos + 1 || !IsJsWhitespace(src[st.lastPos]))
    ensures AllPlaced(src, Push(d, src, st, kind).tokens)
  {
    if st.lastPos < st.pos {
      var e := Emit(d, kind, st.tokLine, st.tokColumn, src[st.lastPos..st.pos]);
      assert Push(d, src, st, kind).tokens == st.tokens + e;
      if kind != Blank {
        EmitPlaced(src, st, kind, d);
      }
    }
  }

  /** A step failure that names the character at index `k` and reports its position. */
  predicate ErrorFrom(src: string, r: Stepped, k: int) {
    r.Halt? && 0 <= k < |src| && src[k] != ' ' && r.error == "SyntaxError: Unexpected token " + [src[k]]
    && Track(src, k + 1) == (r.line, r.column + 1)
  }

  ghost predicate ErrorAtChar(src: string, r: Stepped) {
    r.Halt? ==> exists k :: ErrorFrom(src, r, k)
  }

  /** All the position proofs need to know about the token being collected: where
      its first character is visible to trim. */
  predicate Opened(src: string, t: Scan) {
    (t.status == InSymbol ==> t.pos == t.lastPos + 1)
    && (t.status != InBlank && t.status != InSymbol ==>
          0 <= t.lastPos < |src| && !IsJsWhitespace(src[t.lastPos]))
  }

  lemma CollectingOpened(src: string, t: Scan)
    requires Collecting(src, t)
    ensures Opened(src, t)
  {
  }

  lemma StepPlaced(d: Dialect, src: string, st: Scan)
    requires Shaped(d, src, st) && Placed(src, st) && Ready(src, st)
    ensures Step(d, src, st).Continue? ==> Placed(src, Step(d, src, st).scan)
    ensures ErrorAtChar(src, Step(d, src, st))
  {
    var c := CodeAt(src, st.pos);
    var t := NextChar(src, st, c);
    NextCharTracks(src, st);
    CollectingOpened(src, t);
    match t.status
    case InBlank => BlankPlaced(d, src, t, c);
    case InNumber => NumberPlaced(d, src, t, c);
    case InName => NamePlaced(d, src, t, c);
    case InSymbol => SymbolPlaced(d, src, t, c);
    case InString => StringPlaced(d, src, t, c);
    case InLineComment => LineCommentPlaced(d, src, t, c);
    case InBlockComment => BlockCommentPlaced(d, src, t, c);
  }

  /** The condition every status case starts from: the current character has been
      counted, so the counters stand at Track(pos + 1). */
  ghost predicate Counted(src: string, t: Scan, c: int) {
    Ready(src, t) && c == CodeAt(src, t.pos)
    && (t.lineNum, t.linePos) == Track(src, t.pos + 1)
    && (t.status != InBlank ==> (t.tokLine, t.tokColumn + 1) == Track(src, t.lastPos + 1))
    && AllPlaced(src, t.tokens)
  }

  lemma OpenPlaced(src: string, u: Scan, s: Status)
    requires 0 <= u.lastPos == u.pos < |src| && (u.lineNum, u.linePos) == Track(src, u.pos + 1)
    requires AllPlaced(src, u.tokens)
    ensures Placed(src, Advance(SetStatus(u, s)).scan)
  {
  }

  lemma CheckNextPlaced(src: string, u: Scan)
    requires 0 <= u.lastPos == u.pos && (u.lineNum, u.linePos) == Track(src, u.pos)
    requires AllPlaced(src, u.tokens)
    ensures Placed(src, Advance(CheckNextChar(src, u)).scan)
  {
    NextCharTracks(src, u);
  }

  /** Pushing the collected token and opening a new one at the current character. */
  lemma OpenedPlaced(d: Dialect, src: string, t: Scan, kind: TokenKind, s: Status)
    requires 0 <= t.lastPos <= t.pos < |src| && AllPlaced(src, t.tokens)
    requires (t.lineNum, t.linePos) == Track(src, t.pos + 1)
    requires kind != Blank && t.lastPos < t.pos ==>
               (t.tokLine, t.tokColumn + 1) == Track(src, t.lastPos + 1)
               && (t.pos == t.lastPos + 1 || !IsJsWhitespace(src[t.lastPos]))
    ensures Placed(src, Advance(SetStatus(Push(d, src, t, kind), s)).scan)
  {
    PushPlaced(d, src, t, kind);
    OpenPlaced(src, Push(d, src, t, kind), s);
  }

  /** The same when the new token is a string opened by quote `q`. */
  lemma QuotedPlaced(d: Dialect, src: string, t: Scan, kind: TokenKind, q: int)
    requires 0 <= t.lastPos <= t.pos < |src| && AllPlaced(src, t.tokens)
    requires (t.lineNum, t.linePos) == Track(src, t.pos + 1)
    requires kind != Blank && t.lastPos < t.pos ==>
               (t.tokLine, t.tokColumn + 1) == Track(src, t.lastPos + 1)
               && (t.pos == t.lastPos + 1 || !IsJsWhitespace(src[t.lastPos]))
    ensures Placed(src, Advance(SetStatus(Push(d, src, t, kind).(quote := q), InString)).scan)
  {
    PushPlaced(d, src, t, kind);
    OpenPlaced(src, Push(d, src, t, kind).(quote := q), InString);
  }

  lemma BlankPlaced(d: Dialect, src: string, t: Scan, c: int)
    requires Opened(src, t) && Counted(src, t, c) && t.status == InBlank
    ensures InBlankStep(d, src, t, c).Continue? ==> Placed(src, InBlankStep(d, src, t, c).scan)
    ensures ErrorAtChar(src, InBlankStep(d, src, t, c))
  {
    if IsDigit(c) {
      OpenedPlaced(d, src, t, Blank, InNumber);
    } else if IsLetter(c) {
      OpenedPlaced(d, src, t, Blank, InName);
    } else if IsQuote(c) {
      QuotedPlaced(d, src, t, Blank, c);
    } else if IsBlankCode(c) {
      KeepPlaced(src, t, InBlankStep(d, src, t, c).scan);
    } else {
      OpenedPlaced(d, src, t, Blank, InSymbol);
    }
  }

  /** A step that only changes flags keeps the counters in line. */
  lemma KeepPlaced(src: string, t: Scan, u: Scan)
    requires (t.lineNum, t.linePos) == Track(src, t.pos + 1)
    requires t.status != InBlank ==> (t.tokLine, t.tokColumn + 1) == Track(src, t.lastPos + 1)
    requires AllPlaced(src, t.tokens)
    requires u.pos == t.pos + 1 && u.lineNum == t.lineNum && u.linePos == t.linePos
    requires u.tokLine == t.tokLine && u.tokColumn == t.tokColumn && u.lastPos == t.lastPos
    requires u.tokens == t.tokens && (u.status == t.status || u.status == InLineComment || u.status == InBlockComment)
    requires u.status != InBlank ==> t.status != InBlank
    ensures Placed(src, u)
  {
  }

  lemma NumberPlaced(d: Dialect, src: string, t: Scan, c: int)
    requires Opened(src, t) && Counted(src, t, c) && t.status == InNumber
    ensures InNumberStep(d, src, t, c).Continue? ==> Placed(src, InNumberStep(d, src, t, c).scan)
    ensures ErrorAtChar(src, InNumberStep(d, src, t, c))
  {
    NumberCases(d, src, t, c);
    NumberOutcomePlaced(d, src, t, c, InNumberStep(d, src, t, c));
  }

  lemma NumberOutcomePlaced(d: Dialect, src: string, t: Scan, c: int, r: Stepped)
    requires Opened(src, t) && Counted(src, t, c) && t.status == InNumber
    requires NumberOutcome(d, src, t, c, r)
    ensures r.Continue? ==> Placed(src, r.scan)
    ensures ErrorAtChar(src, r)
  {
    if r.Halt? {
      assert ErrorFrom(src, r, t.pos);
    } else if Kept(t, r.scan) {
      KeepPlaced(src, t, r.scan);
    } else {
      OpenedPlaced(d, src, t, Number, if IsBlankCode(c) then InBlank else InSymbol);
    }
  }

  lemma NamePlaced(d: Dialect, src: string, t: Scan, c: int)
    requires Opened(src, t) && Counted(src, t, c) && t.status == InName
    ensures InNameStep(d, src, t, c).Continue? ==> Placed(src, InNameStep(d, src, t, c).scan)
    ensures ErrorAtChar(src, InNameStep(d, src, t, c))
  {
    if IsDigit(c) || IsLetter(c) {
      KeepPlaced(src, t, InNameStep(d, src, t, c).scan);
    } else {
      assert src[t.pos] != '_';
      if IsBlankCode(c) {
        OpenedPlaced(d, src, t, Name, InBlank);
      } else {
        OpenedPlaced(d, src, t, Name, InSymbol);
      }
    }
  }

  lemma SymbolPlaced(d: Dialect, src: string, t: Scan, c: int)
    requires Opened(src, t) && Counted(src, t, c) && t.status == InSymbol
    ensures InSymbolStep(d, src, t, c).Continue? ==> Placed(src, InSymbolStep(d, src, t, c).scan)
    ensures ErrorAtChar(src, InSymbolStep(d, src, t, c))
  {
    var pc := CodeAt(src, t.pos - 1);
    if (c == 47 && pc == 47) || (pc == 47 && c == 42) {
      KeepPlaced(src, t, InSymbolStep(d, src, t, c).scan);
    } else if IsDigit(c) {
      OpenedPlaced(d, src, t, Symbol, InNumber);
    } else if IsLetter(c) {
      OpenedPlaced(d, src, t, Symbol, InName);
    } else if IsBlankCode(c) {
      OpenedPlaced(d, src, t, Symbol, InBlank);
    } else if IsQuote(c) {
      QuotedPlaced(d, src, t, Symbol, c);
    } else {
      OpenedPlaced(d, src, t, Symbol, InSymbol);
    }
  }

  /** Closing a string or a comment: push up to `end`, then classify the character
      at `end` (checkNextChar). */
  lemma ClosePlaced(d: Dialect, src: string, t: Scan, kind: TokenKind, end: int)
    requires 0 <= t.lastPos < end <= |src| && kind != Blank && t.status != InBlank
    requires (t.tokLine, t.tokColumn + 1) == Track(src, t.lastPos + 1)
    requires !IsJsWhitespace(src[t.lastPos])
    requires AllPlaced(src, t.tokens)
    requires (t.lineNum, t.linePos) == Track(src, end)
    ensures Placed(src, Advance(CheckNextChar(src, Push(d, src, t.(pos := end), kind))).scan)
  {
    var v := t.(pos := end);
    PushPlaced(d, src, v, kind);
    CheckNextPlaced(src, Push(d, src, v, kind));
  }

  /** The same for a block comment, whose closing slash is counted by a separate
      nextChar(). */
  lemma CloseBlockPlaced(d: Dialect, src: string, t: Scan, kind: TokenKind, end: int)
    requires 0 <= t.lastPos < end <= |src| && t.status != InBlank && kind != Blank
    requires (t.tokLine, t.tokColumn + 1) == Track(src, t.lastPos + 1)
    requires !IsJsWhitespace(src[t.lastPos])
    requires AllPlaced(src, t.tokens)
    requires (t.lineNum, t.linePos) == Track(src, end - 1) && CodeAt(src, end - 1) == 47
    ensures Placed(src, Advance(CheckNextChar(src, NextChar(src, Push(d, src, t.(pos := end), kind), -1))).scan)
  {
    assert Track(src, end) == (t.lineNum, t.linePos + 1);
    var v := t.(pos := end);
    PushPlaced(d, src, v, kind);
    CheckNextPlaced(src, NextChar(src, Push(d, src, v, kind), -1));
  }

  lemma BlockKeeps(d: Dialect, src: string, t: Scan, c: int)
    requires Ready(src, t) && !BlockEnds(src, t, c)
    ensures InBlockCommentStep(d, src, t, c).Continue? && Kept(t, InBlockCommentStep(d, src, t, c).scan)
  {
  }

  lemma BlockClosePlaced(d: Dialect, src: string, t: Scan, c: int)
    requires Opened(src, t) && Counted(src, t, c) && t.status == InBlockComment
    requires BlockEnds(src, t, c)
    ensures InBlockCommentStep(d, src, t, c).Continue?
    ensures Placed(src, InBlockCommentStep(d, src, t, c).scan)
  {
    BlockCloseStep(d, src, t, c);
    CloseBlockPlaced(d, src, t, Comment, t.pos + 2);
  }

  lemma StringPlaced(d: Dialect, src: string, t: Scan, c: int)
    requires Opened(src, t) && Counted(src, t, c) && t.status == InString
    ensures InStringStep(d, src, t, c).Continue? ==> Placed(src, InStringStep(d, src, t, c).scan)
    ensures ErrorAtChar(src, InStringStep(d, src, t, c))
  {
    if StringEnds(t, c) {
      StringCloseStep(d, src, t, c);
      ClosePlaced(d, src, t, Str, t.pos + 1);
    } else {
      StringKeeps(d, src, t, c);
      KeepPlaced(src, t, InStringStep(d, src, t, c).scan);
    }
  }

  /** Any character but the closing quote leaves a string open. */
  lemma StringKeeps(d: Dialect, src: string, t: Scan, c: int)
    requires Ready(src, t) && !StringEnds(t, c)
    ensures InStringStep(d, src, t, c).Continue? && Kept(t, InStringStep(d, src, t, c).scan)
  {
  }

  lemma LineCommentPlaced(d: Dialect, src: string, t: Scan, c: int)
    requires Opened(src, t) && Counted(src, t, c) && t.status == InLineComment
    ensures InLineCommentStep(d, src, t, c).Continue? ==> Placed(src, InLineCommentStep(d, src, t, c).scan)
    ensures ErrorAtChar(src, InLineCommentStep(d, src, t, c))
  {
    if LineEnds(src, t, c) {
      LineCloseStep(d, src, t, c);
      ClosePlaced(d, src, t, Comment, t.pos + 1);
    } else {
      assert InLineCommentStep(d, src, t, c) == Advance(t);
      KeepPlaced(src, t, InLineCommentStep(d, src, t, c).scan);
    }
  }

  lemma BlockCommentPlaced(d: Dialect, src: string, t: Scan, c: int)
    requires Opened(src, t) && Counted(src, t, c) && t.status == InBlockComment
    ensures InBlockCommentStep(d, src, t, c).Continue? ==> Placed(src, InBlockCommentStep(d, src, t, c).scan)
    ensures ErrorAtChar(src, InBlockCommentStep(d, src, t, c))
  {
    if BlockEnds(src, t, c) {
      BlockClosePlaced(d, src, t, c);
    } else {
      BlockKeeps(d, src, t, c);
      KeepPlaced(src, t, InBlockCommentStep(d, src, t, c).scan);
    }
  }

  // ---------------------------------------------------------------------------
  // Positions of the whole scan

  /** The error returned after the loop names a character of the text with its position,
      or says that the text ended inside a token. */
  predicate NamesChar(src: string, error: string, line: int, column: int, k: int) {
    0 <= k < |src| && src[k] != ' ' && error == "SyntaxError: Unexpected token " + [src[k]]
    && Track(src, k + 1) == (line, column + 1)
  }

  ghost predicate LexPlaced(src: string, r: LexResult) {
    (r.Tokens? ==> AllPlaced(src, r.list))
    && (r.LexFailure? ==>
          r.error == "SyntaxError: Unexpected end of input"
          || exists k :: NamesChar(src, r.error, r.line, r.column, k))
  }

  lemma HaltPlaced(src: string, r: Stepped)
    requires r.Halt? && ErrorAtChar(src, r)
    ensures LexPlaced(src, LexFailure(r.error, r.line, r.column))
  {
    var k :| ErrorFrom(src, r, k);
    assert NamesChar(src, r.error, r.line, r.column, k);
  }

  lemma {:induction false} RunPlaced(d: Dialect, src: string, st: Scan)
    requires Shaped(d, src, st) && Placed(src, st)
    ensures LexPlaced(src, Run(d, src, st))
    decreases |src| + 2 - st.pos
  {
    if st.pos < |src| {
      StepShaped(d, src, st);
      StepPlaced(d, src, st);
      var r := Step(d, src, st);
      if r.Continue? {
        RunPlaced(d, src, r.scan);
      } else {
        HaltPlaced(src, r);
      }
    }
  }

  lemma StartPlaced(d: Dialect, source: string)
    ensures LexPlaced(source + " ", Tokenize(d, source))
  {
    var src := source + " ";
    assert Shaped(d, src, Start);
    assert Placed(src, Start);
    RunPlaced(d, src, Start);
  }

  /** Appending a blank changes no position inside the text nor the one just after it. */
  lemma {:induction false} TrackAppend(a: string, n: int)
    requires n <= |a| + 1
    ensures Track(a + " ", n) == Track(a, n)
    decreases n
  {
    if n > 0 {
      TrackAppend(a, n - 1);
      assert CodeAt(a + " ", n - 1) == CodeAt(a, n - 1) || (n - 1 == |a| && CodeAt(a, n - 1) == -1);
      assert n >= 2 ==> CodeAt(a + " ", n - 2) == CodeAt(a, n - 2);
    }
  }

  /** What TokensPlaced says about the text without the appended blank. */
  ghost predicate InSource(source: string, ts: seq<Token>) {
    forall t :: t in ts && t.kind != Blank ==> exists k :: TokenFrom(source, t, k)
  }

  predicate TokenFrom(source: string, t: Token, k: int) {
    0 <= k <= |source| && Track(source, k + 1) == (t.line, t.column + 1)
    && (t.text != [] ==> k < |source| && t.text[0] == source[k])
  }

  lemma TokenInSource(d: Dialect, source: string, t: Token, k: int)
    requires StartsAt(source + " ", t, k) && ScannedToken(d, t) && t.kind != Blank
    ensures TokenFrom(source, t, k)
  {
    TrackAppend(source, k + 1);
    if t.text != [] {
      assert t.text[0] != ' ';
      assert (source + " ")[k] == t.text[0];
    }
  }

  lemma TokensInSource(d: Dialect, source: string, ts: seq<Token>)
    requires AllPlaced(source + " ", ts) && AllScanned(d, ts)
    ensures InSource(source, ts)
  {
    forall t | t in ts && t.kind != Blank
      ensures exists k :: TokenFrom(source, t, k)
    {
      var k :| StartsAt(source + " ", t, k);
      TokenInSource(d, source, t, k);
    }
  }

  /** The error part, without the appended blank. */
  ghost predicate ErrorInSource(source: string, r: LexResult) {
    r.LexFailure? ==>
      r.error == "SyntaxError: Unexpected end of input"
      || exists k :: 0 <= k < |source| && r.error == "SyntaxError: Unexpected token " + [source[k]]
                     && Track(source, k + 1) == (r.line, r.column + 1)
  }

  lemma FailureInSource(source: string, r: LexResult)
    requires LexPlaced(source + " ", r)
    ensures ErrorInSource(source, r)
  {
    if r.LexFailure? && r.error != "SyntaxError: Unexpected end of input" {
      var k :| NamesChar(source + " ", r.error, r.line, r.column, k);
      TrackAppend(source, k + 1);
      assert k < |source| && (source + " ")[k] == source[k];
    }
  }

  /** Every token the scanner returns, apart from the whitespace runs, carries the line
      and column of the character it starts at, and that character is its first one. */
  lemma TokenizePlaced(d: Dialect, source: string)
    ensures Tokenize(d, source).Tokens? ==> InSource(source, Tokenize(d, source).list)
  {
    StartPlaced(d, source);
    TokenizeShaped(d, source);
    if Tokenize(d, source).Tokens? {
      TokensInSource(d, source, Tokenize(d, source).list);
    }
  }

  /** A scan fails either because the text ends inside a token, or at a character of
      the text it cannot accept, reported with that character's position. */
  lemma TokenizeErrorPlaced(d: Dialect, source: string)
    ensures ErrorInSource(source, Tokenize(d, source))
  {
    StartPlaced(d, source);
    FailureInSource(source, Tokenize(d, source));
  }

  // ---------------------------------------------------------------------------
  // The rules for numbers and strings, one character at a time

  /** The first `e` or `E` of a number clears the dot and sign flags; a second one is
      an error naming it. */
  lemma NumberExponent(d: Dialect, src: string, t: Scan)
    requires Ready(src, t) && (src[t.pos] == 'e' || src[t.pos] == 'E')
    ensures var r := InNumberStep(d, src, t, CodeAt(src, t.pos));
            (!t.hasE ==> r.Continue? && r.scan.hasE && !r.scan.hasDot && !r.scan.hasSign
                           && r.scan.status == t.status && r.scan.tokens == t.tokens)
            && (t.hasE ==> r == Throw(t, "Unexpected token " + [src[t.pos]]))
  {
  }

  /** A second `.` since the start of the number or since its exponent is an error. */
  lemma NumberDot(d: Dialect, src: string, t: Scan)
    requires Ready(src, t) && src[t.pos] == '.'
    ensures var r := InNumberStep(d, src, t, CodeAt(src, t.pos));
            (t.hasDot ==> r == Throw(t, "Unexpected token ."))
            && (!t.hasDot ==> r.Continue? && r.scan.hasDot && r.scan.hasE == t.hasE && r.scan.status == t.status)
  {
  }

  /** A `-` always belongs to the number, a `+` only after an exponent; a second sign is
      an error.  A `+` before any exponent ends the number and starts a symbol. */
  lemma NumberSign(d: Dialect, src: string, t: Scan)
    requires Ready(src, t) && (src[t.pos] == '+' || src[t.pos] == '-')
    ensures var r := InNumberStep(d, src, t, CodeAt(src, t.pos));
            (src[t.pos] == '-' || t.hasE ==>
               (t.hasSign ==> r == Throw(t, "Unexpected token " + [src[t.pos]]))
               && (!t.hasSign ==> r.Continue? && r.scan.hasSign && r.scan.status == t.status))
            && (src[t.pos] == '+' && !t.hasE ==> r.Continue? && r.scan.status == InSymbol)
  {
  }

  /** Inside a string only its own quote, unescaped, closes it; a backslash flips the
      escape flag and any other character clears it. */
  lemma StringRules(d: Dialect, src: string, t: Scan, c: int)
    requires Ready(src, t) && c == CodeAt(src, t.pos) && t.status == InString
    ensures var r := InStringStep(d, src, t, c);
            r.Continue?
            && (r.scan.status != InString <==> c == t.quote && !t.backslash)
            && (r.scan.status == InString ==>
                  r.scan.tokens == t.tokens
                  && r.scan.backslash == (c == 92 && !t.backslash))
  {
    if StringEnds(t, c) {
      StringCloseStep(d, src, t, c);
      assert t.pos + 1 <= |src|;
    }
  }
}
