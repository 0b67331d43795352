/** The scanner of the older compiler prototype (lib/compiler/token.js): one pass
    over the characters that cuts the text into words {type, start, word}, with no
    line or column tracking, whitespace dropped and string quotes removed. */
module LegacyLexer {
  import opened Tokens
  import Lexer

  /** The scanner status (STATUS). */
  datatype Status = BlankStatus | NumberStatus | WordStatus | SymbolStatus | StringStatus

  /** A word: its type, the offset where its slice starts, and its text.  The type of
      a name is `None`: the prototype reads `WORD.WORD`, which the word-type table
      of lib/compiler/define.js does not have. */
  datatype Word = Word(kind: Option<TokenKind>, start: int, word: string)

  /** The value `quoteBegin` has when no string is open (`false`). */
  const NoQuote: int := -1

  /** The scanner's variables between two iterations of its loop. */
  datatype Scan = Scan(
    pos: int,            // curPos
    lastPos: int,        // start of the word being collected
    status: Status,
    quote: int,          // quoteBegin, a character code or NoQuote
    hasE: bool,
    hasDot: bool,
    hasSign: bool,
    backslash: bool,     // prevCharIsBackslash
    words: seq<Word>)

  /** The word list, or the error record the scanner returns instead. */
  datatype Scanned = Words(words: seq<Word>) | ScanError(error: string, position: int)

  datatype Stepped = Continue(scan: Scan) | Halt(error: string, position: int)

  /** isLetter: A to Z, a to z and the underscore (the dollar sign is not a letter
      here). */
  predicate IsLetter(c: int) { (65 <= c <= 90) || (97 <= c <= 122) || c == 95 }

  /** The characters a name can continue with. */
  predicate IsNameChar(ch: char) { Lexer.IsDigit(ch as int) || IsLetter(ch as int) }

  /** The type a name gets: `undefined` as written, the NAME type once the slip is
      corrected. */
  function NameKind(v: Version): Option<TokenKind> {
    if v == AsWritten then None else Some(Name)
  }

  // ---------------------------------------------------------------------------
  // pushWord

  /** `w.substr(1, w.length - 2)`: the text without its first and last character. */
  function Unquoted(w: string): (r: string)
    ensures |w| >= 2 ==> r == w[1..|w| - 1]
    ensures |w| < 2 ==> r == ""
  {
    if |w| >= 2 then w[1..|w| - 1] else ""
  }

  /** The word pushWord makes from the slice `w` starting at `start`: none for
      whitespace, the trimmed slice otherwise, without its quotes for a string. */
  function Made(kind: Option<TokenKind>, start: int, w: string): (ws: seq<Word>)
    ensures kind == Some(Blank) <==> ws == []
    ensures ws != [] ==> ws == [Word(kind, start, if kind == Some(Str) then Unquoted(Trim(w)) else Trim(w))]
  {
    if kind == Some(Blank) then []
    else [Word(kind, start, if kind == Some(Str) then Unquoted(Trim(w)) else Trim(w))]
  }

  /** pushWord(t), with curPos at `end`: the slice from lastPos up to `end` becomes a
      word when it is not empty, lastPos moves to `end` and the per-word flags are
      reset. */
  function Push(src: string, st: Scan, kind: Option<TokenKind>, end: int): (r: Scan)
    requires 0 <= st.lastPos && end <= |src|
    ensures r.pos == st.pos && r.lastPos == end && r.status == st.status
    ensures r.quote == NoQuote && !r.hasE && !r.hasDot && !r.hasSign && !r.backslash
    ensures r.words == st.words + (if st.lastPos < end then Made(kind, st.lastPos, src[st.lastPos..end]) else [])
  {
    var made := if st.lastPos < end then Made(kind, st.lastPos, src[st.lastPos..end]) else [];
    st.(words := st.words + made, lastPos := end, quote := NoQuote,
        hasE := false, hasDot := false, hasSign := false, backslash := false)
  }

  /** The loop's own `curPos++`. */
  function Advance(st: Scan): (r: Stepped)
    ensures r == Continue(st.(pos := st.pos + 1))
  {
    Continue(st.(pos := st.pos + 1))
  }

  /** throwError(msg), at the position of the character just read. */
  function Throw(st: Scan, msg: string): (r: Stepped)
    ensures r == Halt("SyntaxError: " + msg, st.pos)
  {
    Halt("SyntaxError: " + msg, st.pos)
  }

  // ---------------------------------------------------------------------------
  // One iteration of the loop

  predicate Ready(src: string, st: Scan) {
    0 <= st.lastPos <= st.pos < |src|
  }

  /** What every branch promises about the positions. */
  predicate Moves(src: string, st: Scan, r: Stepped) {
    r.Continue? ==> r.scan.pos > st.pos && st.lastPos <= r.scan.lastPos <= r.scan.pos <= |src| + 1 && r.scan.lastPos <= |src|
  }

  function Step(v: Version, src: string, st: Scan): (r: Stepped)
    requires Ready(src, st)
    ensures Moves(src, st, r)
  {
    var c := src[st.pos] as int;
    match st.status
    case BlankStatus => BlankStep(src, st, c)
    case NumberStatus => NumberStep(src, st, c)
    case WordStatus => WordStep(v, src, st, c)
    case SymbolStatus => SymbolStep(src, st, c)
    case StringStatus => StringStep(v, src, st, c)
  }

  function BlankStep(src: string, t: Scan, c: int): (r: Stepped)
    requires Ready(src, t)
    ensures Moves(src, t, r)
  {
    if Lexer.IsDigit(c) then Advance(Push(src, t, Some(Blank), t.pos).(status := NumberStatus))
    else if IsLetter(c) then Advance(Push(src, t, Some(Blank), t.pos).(status := WordStatus))
    else if Lexer.IsQuote(c) then Advance(Push(src, t, Some(Blank), t.pos).(quote := c, status := StringStatus))
    else if Lexer.IsBlankCode(c) then Advance(t)
    else Advance(Push(src, t, Some(Blank), t.pos).(status := SymbolStatus))
  }

  /** In a number a first `e` or `E` is part of it (and allows another dot and
      sign), any other letter is an error; a first dot and a first sign are part of
      it too, and any other symbol ends it. */
  function NumberStep(src: string, t: Scan, c: int): (r: Stepped)
    requires Ready(src, t)
    ensures Moves(src, t, r)
  {
    var s := src[t.pos];
    if Lexer.IsDigit(c) then Advance(t)
    else if IsLetter(c) then
      if !t.hasE && (s == 'e' || s == 'E') then Advance(t.(hasE := true, hasSign := false, hasDot := false))
      else Throw(t, "Unexpected token " + [s])
    else if Lexer.IsBlankCode(c) then Advance(Push(src, t, Some(Number), t.pos).(status := BlankStatus))
    else if !t.hasDot && s == '.' then Advance(t.(hasDot := true))
    else if !t.hasSign && (s == '+' || s == '-') then Advance(t.(hasSign := true))
    else Advance(Push(src, t, Some(Number), t.pos).(status := SymbolStatus))
  }

  function WordStep(v: Version, src: string, t: Scan, c: int): (r: Stepped)
    requires Ready(src, t)
    ensures Moves(src, t, r)
  {
    if Lexer.IsDigit(c) || IsLetter(c) then Advance(t)
    else if Lexer.IsBlankCode(c) then Advance(Push(src, t, NameKind(v), t.pos).(status := BlankStatus))
    else if src[t.pos] == '_' then Advance(t)
    else Advance(Push(src, t, NameKind(v), t.pos).(status := SymbolStatus))
  }

  /** Each symbol character is a word of its own; a quote after a symbol is a symbol
      too. */
  function SymbolStep(src: string, t: Scan, c: int): (r: Stepped)
    requires Ready(src, t)
    ensures Moves(src, t, r)
  {
    var u := Push(src, t, Some(Symbol), t.pos);
    if Lexer.IsDigit(c) then Advance(u.(status := NumberStatus))
    else if IsLetter(c) then Advance(u.(status := WordStatus))
    else if Lexer.IsBlankCode(c) then Advance(u.(status := BlankStatus))
    else Advance(u.(status := SymbolStatus))
  }

  /** The quote that opened a string, not escaped, closes it. */
  predicate StringEnds(t: Scan, c: int) {
    c == t.quote && !t.backslash
  }

  /** A string ends at its own quote when no backslash escapes it.  pushWord(STRING, 1)
      moves curPos past the quote and the loop then moves it once more, so as written
      the character after the quote is never looked at; `Intended` looks at it. */
  function StringStep(v: Version, src: string, t: Scan, c: int): (r: Stepped)
    requires Ready(src, t)
    ensures Moves(src, t, r)
  {
    if StringEnds(t, c) then
      var u := Push(src, t, Some(Str), t.pos + 1).(status := BlankStatus);
      if v == AsWritten then Continue(u.(pos := t.pos + 2)) else Continue(u.(pos := t.pos + 1))
    else if c == 92 then Advance(t.(backslash := !t.backslash))
    else if t.backslash then Advance(t.(backslash := false))
    else Advance(t)
  }

  // ---------------------------------------------------------------------------
  // The whole scan

  predicate Bounded(src: string, st: Scan) {
    0 <= st.lastPos <= st.pos <= |src| + 1 && st.lastPos <= |src|
  }

  const Start: Scan := Scan(0, 0, BlankStatus, NoQuote, false, false, false, false, [])

  /** After the loop: anything but the blank status means the text ended inside a
      word. */
  function Finish(st: Scan): (r: Scanned)
    ensures r.Words? <==> st.status == BlankStatus
    ensures r.Words? ==> r.words == st.words
    ensures r.ScanError? ==> r == ScanError("SyntaxError: Unexpected end of input", st.pos)
  {
    if st.status != BlankStatus then ScanError("SyntaxError: Unexpected end of input", st.pos)
    else Words(st.words)
  }

  function Run(v: Version, src: string, st: Scan): Scanned
    requires Bounded(src, st)
    decreases |src| + 2 - st.pos
  {
    if st.pos >= |src| then Finish(st)
    else
      match Step(v, src, st)
      case Halt(e, p) => ScanError(e, p)
      case Continue(next) => Run(v, src, next)
  }

  /** exports.parse(source): a blank is appended so that the last word is always
      closed. */
  function Tokenize(v: Version, source: string): Scanned {
    Run(v, source + " ", Start)
  }

  /** The scanner loop itself. */
  method Lex(v: Version, source: string) returns (r: Scanned)
    ensures r == Tokenize(v, source)
  {
    var src := source + " ";
    var st := Start;
    while st.pos < |src|
      invariant Bounded(src, st)
      invariant Run(v, src, st) == Tokenize(v, source)
      decreases |src| + 2 - st.pos
    {
      match Step(v, src, st)
      case Halt(e, p) =>
        return ScanError(e, p);
      case Continue(next) =>
        st := next;
    }
    r := Finish(st);
  }
}

/** What the older scanner's words are: where each lies in the text, what it is
    made of, that they do not overlap, and where the errors point. */
module LegacyLexerFacts {
  import opened Tokens
  import Lexer
  import LexerFacts
  import opened LegacyLexer

  /** The index just past the last character of word `w`'s slice (its closing quote
      for a string). */
  function Extent(w: Word): int {
    w.start + |w.word| + (if w.kind == Some(Str) then 2 else 0)
  }

  /** A symbol character: none of the classes that start another kind of word. */
  predicate SymbolChar(c: char) {
    !Lexer.IsDigit(c as int) && !IsLetter(c as int) && !Lexer.IsBlankCode(c as int)
  }

  /** Word `w` is the text of `src` from its start up to its extent: a string is the
      content between its two equal quotes, a symbol at most one character, a number
      and a name made of their own character classes. */
  predicate Placed(v: Version, src: string, w: Word) {
    0 <= w.start < |src| && Extent(w) <= |src| &&
    if w.kind == Some(Str) then
      Lexer.IsQuote(src[w.start] as int) && src[Extent(w) - 1] == src[w.start]
      && w.word == src[w.start + 1..Extent(w) - 1]
    else
      w.word == src[w.start..Extent(w)] &&
      if w.kind == Some(Symbol) then |w.word| <= 1 && SymbolChar(src[w.start])
      else if w.kind == Some(Number) then
        w.word != [] && Lexer.IsDigit(w.word[0] as int)
        && forall k :: 0 <= k < |w.word| ==> Lexer.IsNumberChar(w.word[k])
      else
        w.kind == NameKind(v) && w.word != [] && IsLetter(w.word[0] as int)
        && forall k :: 0 <= k < |w.word| ==> IsNameChar(w.word[k])
  }

  /** Words placed in `src`, in increasing order without overlap, all ending by
      `bound`. */
  predicate Arranged(v: Version, src: string, ws: seq<Word>, bound: int) {
    (forall i :: 0 <= i < |ws| ==> Placed(v, src, ws[i]))
    && (forall i :: 0 < i < |ws| ==> Extent(ws[i - 1]) <= ws[i].start)
    && (ws != [] ==> Extent(ws[|ws| - 1]) <= bound)
  }

  /** The same, one word at a time from the end: the form the scanner's pushes
      extend. */
  predicate Laid(v: Version, src: string, ws: seq<Word>, bound: int)
    decreases |ws|
  {
    ws == [] ||
    (Placed(v, src, ws[|ws| - 1]) && Extent(ws[|ws| - 1]) <= bound
     && Laid(v, src, ws[..|ws| - 1], ws[|ws| - 1].start))
  }

  lemma {:induction false} LaidArranged(v: Version, src: string, ws: seq<Word>, bound: int)
    requires Laid(v, src, ws, bound)
    ensures Arranged(v, src, ws, bound)
    decreases |ws|
  {
    if ws != [] {
      var init := ws[..|ws| - 1];
      LaidArranged(v, src, init, ws[|ws| - 1].start);
      assert forall i :: 0 <= i < |init| ==> ws[i] == init[i];
    }
  }

  /** What the scanner knows about the word it is collecting, by status. */
  predicate Collecting(src: string, st: Scan) {
    0 <= st.lastPos
    && (st.status == SymbolStatus ==> st.pos == st.lastPos + 1 <= |src| && SymbolChar(src[st.lastPos]))
    && (st.status == NumberStatus ==>
          st.lastPos < st.pos <= |src| && Lexer.IsDigit(src[st.lastPos] as int)
          && forall k :: st.lastPos <= k < st.pos ==> Lexer.IsNumberChar(src[k]))
    && (st.status == WordStatus ==>
          st.lastPos < st.pos <= |src| && IsLetter(src[st.lastPos] as int)
          && forall k :: st.lastPos <= k < st.pos ==> IsNameChar(src[k]))
    && (st.status == StringStatus ==>
          st.lastPos < st.pos <= |src| && Lexer.IsQuote(src[st.lastPos] as int)
          && st.quote == src[st.lastPos] as int)
  }

  /** The text ends with the blank the scanner appends. */
  predicate Closed(src: string) { src != [] && src[|src| - 1] == ' ' }

  predicate Shaped(v: Version, src: string, st: Scan) {
    Closed(src) && Bounded(src, st) && st.pos <= |src| && Collecting(src, st)
    && Laid(v, src, st.words, st.lastPos)
  }

  // ---------------------------------------------------------------------------
  // The word each push makes

  /** A slice with no whitespace at its ends is its own trim. */
  lemma {:induction false} SliceTrimmed(src: string, a: int, b: int)
    requires 0 <= a < b <= |src| && !IsJsWhitespace(src[a]) && !IsJsWhitespace(src[b - 1])
    ensures Trim(src[a..b]) == src[a..b]
  {
    var w := src[a..b];
    assert w[0] == src[a] && w[|w| - 1] == src[b - 1];
    LexerFacts.TrimUnchanged(w);
  }

  lemma {:induction false} NumberPlaced(v: Version, src: string, a: int, b: int)
    requires 0 <= a < b <= |src| && Lexer.IsDigit(src[a] as int)
    requires forall k :: a <= k < b ==> Lexer.IsNumberChar(src[k])
    ensures Placed(v, src, Word(Some(Number), a, src[a..b]))
  {
    var w := src[a..b];
    assert forall k :: 0 <= k < |w| ==> w[k] == src[a + k];
  }

  lemma {:induction false} NumberMade(v: Version, src: string, a: int, b: int)
    requires 0 <= a < b <= |src| && Lexer.IsDigit(src[a] as int)
    requires forall k :: a <= k < b ==> Lexer.IsNumberChar(src[k])
    ensures Made(Some(Number), a, src[a..b]) == [Word(Some(Number), a, src[a..b])]
    ensures Placed(v, src, Word(Some(Number), a, src[a..b]))
  {
    assert Lexer.IsNumberChar(src[b - 1]);
    SliceTrimmed(src, a, b);
    NumberPlaced(v, src, a, b);
  }

  lemma {:induction false} NamePlaced(v: Version, src: string, a: int, b: int)
    requires 0 <= a < b <= |src| && IsLetter(src[a] as int)
    requires forall k :: a <= k < b ==> IsNameChar(src[k])
    ensures Placed(v, src, Word(NameKind(v), a, src[a..b]))
  {
    var w := src[a..b];
    assert forall k :: 0 <= k < |w| ==> w[k] == src[a + k];
  }

  lemma {:induction false} NameMade(v: Version, src: string, a: int, b: int)
    requires 0 <= a < b <= |src| && IsLetter(src[a] as int)
    requires forall k :: a <= k < b ==> IsNameChar(src[k])
    ensures Made(NameKind(v), a, src[a..b]) == [Word(NameKind(v), a, src[a..b])]
    ensures Placed(v, src, Word(NameKind(v), a, src[a..b]))
  {
    assert IsNameChar(src[b - 1]);
    SliceTrimmed(src, a, b);
    NamePlaced(v, src, a, b);
  }

  /** The trim of a single character: the character, or nothing if it is
      whitespace. */
  lemma {:induction false} CharTrimmed(s: string)
    requires |s| == 1
    ensures Trim(s) == (if IsJsWhitespace(s[0]) then [] else s)
  {
    var l := TrimLeft(s);
    assert l == [] || l == s;
  }

  lemma {:induction false} SymbolMade(v: Version, src: string, a: int)
    requires 0 <= a < |src| && SymbolChar(src[a])
    ensures var w := Trim(src[a..a + 1]);
            Made(Some(Symbol), a, src[a..a + 1]) == [Word(Some(Symbol), a, w)]
            && Placed(v, src, Word(Some(Symbol), a, w)) && a + |w| <= a + 1
            && (!IsJsWhitespace(src[a]) ==> w == src[a..a + 1])
  {
    CharTrimmed(src[a..a + 1]);
  }

  lemma {:induction false} StringMade(v: Version, src: string, a: int, b: int)
    requires 0 <= a < b < |src| && Lexer.IsQuote(src[a] as int) && src[b] == src[a]
    ensures Made(Some(Str), a, src[a..b + 1]) == [Word(Some(Str), a, src[a + 1..b])]
    ensures Placed(v, src, Word(Some(Str), a, src[a + 1..b])) && Extent(Word(Some(Str), a, src[a + 1..b])) == b + 1
  {
    QuotedTrimmed(src, a, b);
    InnerSlice(src, a, b);
    QuotedPlaced(v, src, a, b);
  }

  lemma QuotedTrimmed(src: string, a: int, b: int)
    requires 0 <= a < b < |src| && Lexer.IsQuote(src[a] as int) && src[b] == src[a]
    ensures Trim(src[a..b + 1]) == src[a..b + 1]
  {
    var w := src[a..b + 1];
    assert w[0] == src[a] && w[|w| - 1] == src[b];
    QuoteVisible(w[0]);
    QuoteVisible(w[|w| - 1]);
    LexerFacts.TrimUnchanged(w);
  }

  lemma InnerSlice(src: string, a: int, b: int)
    requires 0 <= a < b < |src|
    ensures Unquoted(src[a..b + 1]) == src[a + 1..b]
  {
    var w := src[a..b + 1];
    assert |w| == b + 1 - a;
    var inner := w[1..|w| - 1];
    assert forall i :: 0 <= i < |inner| ==> inner[i] == src[a + 1 + i];
    assert inner == src[a + 1..b];
  }

  lemma QuotedPlaced(v: Version, src: string, a: int, b: int)
    requires 0 <= a < b < |src| && Lexer.IsQuote(src[a] as int) && src[b] == src[a]
    ensures Placed(v, src, Word(Some(Str), a, src[a + 1..b])) && Extent(Word(Some(Str), a, src[a + 1..b])) == b + 1
  {
    assert Extent(Word(Some(Str), a, src[a + 1..b])) == b + 1;
  }

  lemma QuoteVisible(ch: char)
    requires Lexer.IsQuote(ch as int)
    ensures !IsJsWhitespace(ch)
  {
  }

  /** The word a push of the slice from `a` to `end` makes is placed and ends by
      `end`. */
  predicate MadeFits(v: Version, src: string, kind: Option<TokenKind>, a: int, end: int)
    requires 0 <= a <= end <= |src|
  {
    forall w :: w in Made(kind, a, src[a..end]) ==> Placed(v, src, w) && Extent(w) <= end
  }

  /** A push keeps the words laid out when the word it makes is placed and ends by
      the push's end. */
  lemma {:induction false} PushLaid(v: Version, src: string, st: Scan, kind: Option<TokenKind>, end: int)
    requires 0 <= st.lastPos <= end <= |src| && Laid(v, src, st.words, st.lastPos)
    requires st.lastPos < end ==> MadeFits(v, src, kind, st.lastPos, end)
    ensures Laid(v, src, Push(src, st, kind, end).words, end)
  {
    var ws := Push(src, st, kind, end).words;
    if st.lastPos < end && kind != Some(Blank) {
      var w := Made(kind, st.lastPos, src[st.lastPos..end])[0];
      assert ws == st.words + [w];
      assert w in Made(kind, st.lastPos, src[st.lastPos..end]);
      assert ws[..|ws| - 1] == st.words;
    } else {
      assert ws == st.words;
    }
  }

  // ---------------------------------------------------------------------------
  // Each status keeps the shape

  /** Opening a word of status `s` at the current character, once the collected
      slice has been pushed. */
  lemma {:induction false} OpenShaped(v: Version, src: string, u: Scan, s: Status)
    requires Closed(src) && 0 <= u.lastPos == u.pos < |src| && Laid(v, src, u.words, u.pos) && s != StringStatus
    requires s == NumberStatus ==> Lexer.IsDigit(src[u.pos] as int)
    requires s == WordStatus ==> IsLetter(src[u.pos] as int)
    requires s == SymbolStatus ==> SymbolChar(src[u.pos])
    ensures Shaped(v, src, Advance(u.(status := s)).scan)
  {
  }

  /** The same when the word opened is a string. */
  lemma {:induction false} QuoteShaped(v: Version, src: string, u: Scan, q: int)
    requires Closed(src) && 0 <= u.lastPos == u.pos < |src| && Laid(v, src, u.words, u.pos)
    requires Lexer.IsQuote(q) && src[u.pos] as int == q
    ensures Shaped(v, src, Advance(u.(quote := q, status := StringStatus)).scan)
  {
  }

  lemma {:induction false} BlankShaped(v: Version, src: string, t: Scan, c: int)
    requires Shaped(v, src, t) && Ready(src, t) && t.status == BlankStatus && c == src[t.pos] as int
    ensures BlankStep(src, t, c).Continue? ==> Shaped(v, src, BlankStep(src, t, c).scan)
  {
    PushLaid(v, src, t, Some(Blank), t.pos);
    var u := Push(src, t, Some(Blank), t.pos);
    if Lexer.IsDigit(c) {
      OpenShaped(v, src, u, NumberStatus);
    } else if IsLetter(c) {
      OpenShaped(v, src, u, WordStatus);
    } else if Lexer.IsQuote(c) {
      QuoteShaped(v, src, u, c);
    } else if !Lexer.IsBlankCode(c) {
      OpenShaped(v, src, u, SymbolStatus);
    }
  }

  lemma {:induction false} NumberFits(v: Version, src: string, a: int, b: int)
    requires 0 <= a < b <= |src| && Lexer.IsDigit(src[a] as int)
    requires forall k :: a <= k < b ==> Lexer.IsNumberChar(src[k])
    ensures MadeFits(v, src, Some(Number), a, b)
  {
    NumberMade(v, src, a, b);
  }

  lemma {:induction false} NameFits(v: Version, src: string, a: int, b: int)
    requires 0 <= a < b <= |src| && IsLetter(src[a] as int)
    requires forall k :: a <= k < b ==> IsNameChar(src[k])
    ensures MadeFits(v, src, NameKind(v), a, b)
  {
    NameMade(v, src, a, b);
  }

  lemma {:induction false} SymbolFits(v: Version, src: string, a: int, end: int)
    requires 0 <= a < |src| && end == a + 1 && SymbolChar(src[a])
    ensures MadeFits(v, src, Some(Symbol), a, end)
  {
    SymbolMade(v, src, a);
  }

  /** Pushing a number that ends at the current character. */
  lemma {:induction false} NumberPushed(v: Version, src: string, t: Scan)
    requires 0 <= t.lastPos < t.pos <= |src| && Laid(v, src, t.words, t.lastPos)
    requires Lexer.IsDigit(src[t.lastPos] as int)
    requires forall k :: t.lastPos <= k < t.pos ==> Lexer.IsNumberChar(src[k])
    ensures Laid(v, src, Push(src, t, Some(Number), t.pos).words, t.pos)
  {
    NumberFits(v, src, t.lastPos, t.pos);
    PushLaid(v, src, t, Some(Number), t.pos);
  }

  /** Pushing a name that ends at the current character. */
  lemma {:induction false} NamePushed(v: Version, src: string, t: Scan)
    requires 0 <= t.lastPos < t.pos <= |src| && Laid(v, src, t.words, t.lastPos)
    requires IsLetter(src[t.lastPos] as int)
    requires forall k :: t.lastPos <= k < t.pos ==> IsNameChar(src[k])
    ensures Laid(v, src, Push(src, t, NameKind(v), t.pos).words, t.pos)
  {
    NameFits(v, src, t.lastPos, t.pos);
    PushLaid(v, src, t, NameKind(v), t.pos);
  }

  /** Pushing the symbol before the current character. */
  lemma {:induction false} SymbolPushed(v: Version, src: string, t: Scan)
    requires 0 <= t.lastPos && t.pos == t.lastPos + 1 <= |src| && Laid(v, src, t.words, t.lastPos)
    requires SymbolChar(src[t.lastPos])
    ensures Laid(v, src, Push(src, t, Some(Symbol), t.pos).words, t.pos)
  {
    SymbolFits(v, src, t.lastPos, t.pos);
    PushLaid(v, src, t, Some(Symbol), t.pos);
  }

  /** A step that keeps collecting the same word. */
  lemma {:induction false} KeptShaped(v: Version, src: string, t: Scan, u: Scan)
    requires Shaped(v, src, t) && Ready(src, t) && Kept(t, u)
    requires t.status == NumberStatus ==> Lexer.IsNumberChar(src[t.pos])
    requires t.status == WordStatus ==> IsNameChar(src[t.pos])
    requires t.status == SymbolStatus ==> false
    ensures Shaped(v, src, u)
  {
  }

  /** A step that only moves past the current character and changes flags. */
  predicate Kept(t: Scan, u: Scan) {
    u.pos == t.pos + 1 && u.lastPos == t.lastPos && u.words == t.words && u.status == t.status
    && u.quote == t.quote
  }

  /** The outcomes of reading a character inside a number. */
  predicate NumberOutcome(src: string, t: Scan, c: int, r: Stepped)
    requires Ready(src, t)
  {
    r.Halt?
    || (r.Continue? && Kept(t, r.scan) && Lexer.IsNumberChar(src[t.pos]))
    || (Lexer.IsBlankCode(c) && r == Advance(Push(src, t, Some(Number), t.pos).(status := BlankStatus)))
    || (SymbolChar(src[t.pos]) && r == Advance(Push(src, t, Some(Number), t.pos).(status := SymbolStatus)))
  }

  lemma {:induction false} NumberCases(src: string, t: Scan, c: int)
    requires Ready(src, t) && c == src[t.pos] as int
    ensures NumberOutcome(src, t, c, NumberStep(src, t, c))
  {
  }

  lemma {:induction false} NumberShaped(v: Version, src: string, t: Scan, c: int)
    requires Shaped(v, src, t) && Ready(src, t) && t.status == NumberStatus && c == src[t.pos] as int
    ensures NumberStep(src, t, c).Continue? ==> Shaped(v, src, NumberStep(src, t, c).scan)
  {
    NumberCases(src, t, c);
    var r := NumberStep(src, t, c);
    if r.Continue? && Kept(t, r.scan) {
      KeptShaped(v, src, t, r.scan);
    } else if r.Continue? {
      NumberPushed(v, src, t);
      var u := Push(src, t, Some(Number), t.pos);
      if Lexer.IsBlankCode(c) {
        OpenShaped(v, src, u, BlankStatus);
      } else {
        OpenShaped(v, src, u, SymbolStatus);
      }
    }
  }

  lemma {:induction false} WordShaped(v: Version, src: string, t: Scan, c: int)
    requires Shaped(v, src, t) && Ready(src, t) && t.status == WordStatus && c == src[t.pos] as int
    ensures WordStep(v, src, t, c).Continue? ==> Shaped(v, src, WordStep(v, src, t, c).scan)
  {
    if Lexer.IsDigit(c) || IsLetter(c) {
      KeptShaped(v, src, t, WordStep(v, src, t, c).scan);
    } else {
      NamePushed(v, src, t);
      var u := Push(src, t, NameKind(v), t.pos);
      if Lexer.IsBlankCode(c) {
        OpenShaped(v, src, u, BlankStatus);
      } else {
        OpenShaped(v, src, u, SymbolStatus);
      }
    }
  }

  lemma {:induction false} SymbolShaped(v: Version, src: string, t: Scan, c: int)
    requires Shaped(v, src, t) && Ready(src, t) && t.status == SymbolStatus && c == src[t.pos] as int
    ensures SymbolStep(src, t, c).Continue? ==> Shaped(v, src, SymbolStep(src, t, c).scan)
  {
    SymbolPushed(v, src, t);
    var u := Push(src, t, Some(Symbol), t.pos);
    if Lexer.IsDigit(c) {
      OpenShaped(v, src, u, NumberStatus);
    } else if IsLetter(c) {
      OpenShaped(v, src, u, WordStatus);
    } else if Lexer.IsBlankCode(c) {
      OpenShaped(v, src, u, BlankStatus);
    } else {
      OpenShaped(v, src, u, SymbolStatus);
    }
  }

  /** The word a closing quote at `t.pos` makes. */
  lemma {:induction false} CloseMade(v: Version, src: string, t: Scan)
    requires 0 <= t.lastPos < t.pos < |src| - 1
    requires Lexer.IsQuote(src[t.lastPos] as int) && src[t.pos] == src[t.lastPos]
    ensures MadeFits(v, src, Some(Str), t.lastPos, t.pos + 1)
  {
    StringMade(v, src, t.lastPos, t.pos);
  }

  /** The blank at the end of the text is not a quote, so a closing quote is never
      the last character. */
  lemma {:induction false} QuoteNotLast(src: string, k: int)
    requires Closed(src) && 0 <= k < |src| && Lexer.IsQuote(src[k] as int)
    ensures k + 1 < |src|
  {
  }

  /** A string closed by the quote at `t.pos`: the words after the push. */
  lemma {:induction false} CloseLaid(v: Version, src: string, t: Scan)
    requires 0 <= t.lastPos < t.pos < |src| - 1 && Laid(v, src, t.words, t.lastPos)
    requires Lexer.IsQuote(src[t.lastPos] as int) && src[t.pos] == src[t.lastPos]
    ensures Laid(v, src, Push(src, t, Some(Str), t.pos + 1).words, t.pos + 1)
  {
    CloseMade(v, src, t);
    PushLaid(v, src, t, Some(Str), t.pos + 1);
  }

  lemma {:induction false} StringShaped(v: Version, src: string, t: Scan, c: int)
    requires Shaped(v, src, t) && Ready(src, t) && t.status == StringStatus && c == src[t.pos] as int
    ensures StringStep(v, src, t, c).Continue? ==> Shaped(v, src, StringStep(v, src, t, c).scan)
  {
    if StringEnds(t, c) {
      StringCloseShaped(v, src, t, c);
    } else {
      StringKeeps(v, src, t, c);
      KeptShaped(v, src, t, StringStep(v, src, t, c).scan);
    }
  }

  lemma {:induction false} StringCloseShaped(v: Version, src: string, t: Scan, c: int)
    requires Closed(src) && Ready(src, t) && t.lastPos < t.pos && Laid(v, src, t.words, t.lastPos)
    requires Lexer.IsQuote(src[t.lastPos] as int) && t.quote == src[t.lastPos] as int
    requires c == src[t.pos] as int && StringEnds(t, c)
    ensures Shaped(v, src, StringStep(v, src, t, c).scan)
  {
    assert src[t.pos] == src[t.lastPos];
    QuoteNotLast(src, t.pos);
    CloseLaid(v, src, t);
    StringCloseStep(v, src, t, c);
  }

  /** The step a closing quote makes. */
  lemma {:induction false} StringCloseStep(v: Version, src: string, t: Scan, c: int)
    requires Ready(src, t) && StringEnds(t, c)
    ensures StringStep(v, src, t, c).Continue?
    ensures StringStep(v, src, t, c).scan
         == Push(src, t, Some(Str), t.pos + 1).(status := BlankStatus, pos := if v == AsWritten then t.pos + 2 else t.pos + 1)
  {
  }

  /** Any other character leaves the string open. */
  lemma {:induction false} StringKeeps(v: Version, src: string, t: Scan, c: int)
    requires Ready(src, t) && !StringEnds(t, c)
    ensures StringStep(v, src, t, c).Continue? && Kept(t, StringStep(v, src, t, c).scan)
  {
  }

  lemma {:induction false} StepShaped(v: Version, src: string, st: Scan)
    requires Shaped(v, src, st) && Ready(src, st)
    ensures Step(v, src, st).Continue? ==> Shaped(v, src, Step(v, src, st).scan)
  {
    var c := src[st.pos] as int;
    match st.status
    case BlankStatus => BlankShaped(v, src, st, c);
    case NumberStatus => NumberShaped(v, src, st, c);
    case WordStatus => WordShaped(v, src, st, c);
    case SymbolStatus => SymbolShaped(v, src, st, c);
    case StringStatus => StringShaped(v, src, st, c);
  }

  lemma {:induction false} RunShaped(v: Version, src: string, st: Scan)
    requires Shaped(v, src, st)
    ensures Run(v, src, st).Words? ==> Laid(v, src, Run(v, src, st).words, |src|)
    decreases |src| + 2 - st.pos
  {
    if st.pos < |src| {
      StepShaped(v, src, st);
      if Step(v, src, st).Continue? {
        RunShaped(v, src, Step(v, src, st).scan);
      }
    }
  }

  /** A word placed in the text with the blank appended lies in the text itself. */
  lemma {:induction false} PlacedInSource(v: Version, source: string, w: Word)
    requires Placed(v, source + " ", w)
    ensures Placed(v, source, w)
  {
    var src := source + " ";
    assert src[|src| - 1] == ' ';
    if w.kind != Some(Str) && w.word != [] {
      assert w.word[|w.word| - 1] == src[Extent(w) - 1];
    }
    assert Extent(w) <= |source|;
    if w.kind == Some(Str) {
      assert src[w.start + 1..Extent(w) - 1] == source[w.start + 1..Extent(w) - 1];
    } else {
      assert src[w.start..Extent(w)] == source[w.start..Extent(w)];
    }
  }

  /** The words of a scan that succeeds: each is placed in the source (pushWord's
      trimmed slice, with the quotes of a string removed, never a whitespace word),
      and they come in the order of the text without overlapping. */
  lemma {:induction false} TokenizeLaid(v: Version, source: string)
    ensures Tokenize(v, source).Words? ==>
              Arranged(v, source, Tokenize(v, source).words, |source|)
  {
    var src := source + " ";
    RunShaped(v, src, Start);
    if Tokenize(v, source).Words? {
      var ws := Tokenize(v, source).words;
      LaidArranged(v, src, ws, |src|);
      forall i | 0 <= i < |ws| ensures Placed(v, source, ws[i]) {
        PlacedInSource(v, source, ws[i]);
      }
      if ws != [] {
        PlacedInSource(v, source, ws[|ws| - 1]);
      }
    }
  }

  /** No whitespace word is ever returned, and once the slip is corrected every word
      has a type. */
  lemma {:induction false} TokenizeKinds(v: Version, source: string)
    ensures Tokenize(v, source).Words? ==>
              forall w :: w in Tokenize(v, source).words ==>
                w.kind != Some(Blank) && (v == Intended ==> w.kind.Some?)
  {
    TokenizeLaid(v, source);
  }

  // ---------------------------------------------------------------------------
  // The number and string rules, one character at a time

  /** A first `e` or `E` stays in the number and allows another dot and sign. */
  lemma {:induction false} NumberFirstExponent(v: Version, src: string, t: Scan)
    requires Ready(src, t) && t.status == NumberStatus && !t.hasE && (src[t.pos] == 'e' || src[t.pos] == 'E')
    ensures Step(v, src, t) == Continue(t.(pos := t.pos + 1, hasE := true, hasDot := false, hasSign := false))
  {
    assert Step(v, src, t) == NumberStep(src, t, src[t.pos] as int);
  }

  /** Any other letter in a number is an error naming it, at its offset. */
  lemma {:induction false} NumberLetterFails(v: Version, src: string, t: Scan)
    requires Ready(src, t) && t.status == NumberStatus && IsLetter(src[t.pos] as int)
    requires t.hasE || (src[t.pos] != 'e' && src[t.pos] != 'E')
    ensures Step(v, src, t) == Halt("SyntaxError: Unexpected token " + [src[t.pos]], t.pos)
  {
    assert Step(v, src, t) == NumberStep(src, t, src[t.pos] as int);
    assert !Lexer.IsDigit(src[t.pos] as int);
  }

  /** A second dot, or a second sign, is no error: it ends the number, which is
      pushed, and starts a symbol. */
  lemma {:induction false} NumberSecondDotOrSign(v: Version, src: string, t: Scan)
    requires Ready(src, t) && t.status == NumberStatus
    requires (t.hasDot && src[t.pos] == '.') || (t.hasSign && (src[t.pos] == '+' || src[t.pos] == '-'))
    ensures Step(v, src, t) == Advance(Push(src, t, Some(Number), t.pos).(status := SymbolStatus))
  {
    var c := src[t.pos] as int;
    assert !Lexer.IsDigit(c) && !IsLetter(c) && !Lexer.IsBlankCode(c);
    assert Step(v, src, t) == NumberStep(src, t, c);
  }

  lemma {:induction false} StringStepCloses(v: Version, src: string, t: Scan, c: int)
    requires Ready(src, t) && t.status == StringStatus
    ensures StringStep(v, src, t, c).Continue?
    ensures StringStep(v, src, t, c).scan.status == BlankStatus <==> c == t.quote && !t.backslash
  {
  }

  lemma {:induction false} StringCloseWord(v: Version, src: string, t: Scan, c: int)
    requires Ready(src, t) && t.status == StringStatus && StringEnds(t, c)
    ensures StringStep(v, src, t, c).scan.words == t.words + Made(Some(Str), t.lastPos, src[t.lastPos..t.pos + 1])
  {
    StringCloseStep(v, src, t, c);
  }

  lemma {:induction false} StringCloseResumes(v: Version, src: string, t: Scan, c: int)
    requires Ready(src, t) && t.status == StringStatus && StringEnds(t, c)
    ensures StringStep(v, src, t, c).scan.lastPos == t.pos + 1
    ensures StringStep(v, src, t, c).scan.pos == if v == AsWritten then t.pos + 2 else t.pos + 1
  {
    StringCloseStep(v, src, t, c);
  }

  /** A string ends exactly at an unescaped occurrence of its own quote; the word
      pushed then is the one the slice from the opening to the closing quote makes,
      and the scan resumes two characters on as written and one character on as
      intended. */
  lemma {:induction false} StringCloses(v: Version, src: string, t: Scan)
    requires Ready(src, t) && t.status == StringStatus
    ensures Step(v, src, t).Continue?
    ensures Step(v, src, t).scan.status == BlankStatus <==> src[t.pos] as int == t.quote && !t.backslash
    ensures Step(v, src, t).scan.status == BlankStatus ==>
              && Step(v, src, t).scan.words == t.words + Made(Some(Str), t.lastPos, src[t.lastPos..t.pos + 1])
              && Step(v, src, t).scan.lastPos == t.pos + 1
              && Step(v, src, t).scan.pos == if v == AsWritten then t.pos + 2 else t.pos + 1
  {
    var c := src[t.pos] as int;
    assert Step(v, src, t) == StringStep(v, src, t, c);
    StringStepCloses(v, src, t, c);
    if StringEnds(t, c) {
      StringCloseWord(v, src, t, c);
      StringCloseResumes(v, src, t, c);
    }
  }

  /** Inside a string a backslash toggles the escape flag, and any other character
      that is not the closing quote clears it. */
  lemma {:induction false} StringEscapes(v: Version, src: string, t: Scan)
    requires Ready(src, t) && t.status == StringStatus
    requires src[t.pos] as int != t.quote || t.backslash
    ensures Step(v, src, t) == Advance(t.(backslash := src[t.pos] == '\\' && !t.backslash))
  {
    assert Step(v, src, t) == StringStep(v, src, t, src[t.pos] as int);
  }

  // ---------------------------------------------------------------------------
  // Errors

  /** The two errors the scanner reports about text `src`: a letter inside a number,
      at the letter, or the end of the text inside a string, at its end. */
  predicate ErrorForm(src: string, error: string, position: int) {
    (0 <= position < |src| && IsLetter(src[position] as int)
     && error == "SyntaxError: Unexpected token " + [src[position]])
    || (error == "SyntaxError: Unexpected end of input" && position == |src|)
  }

  lemma {:induction false} NumberHalts(src: string, t: Scan, c: int)
    requires Ready(src, t) && c == src[t.pos] as int
    ensures NumberStep(src, t, c).Halt? ==> ErrorForm(src, NumberStep(src, t, c).error, NumberStep(src, t, c).position)
  {
  }

  /** Only a letter inside a number stops a step. */
  lemma {:induction false} StepHalts(v: Version, src: string, st: Scan)
    requires Ready(src, st)
    ensures Step(v, src, st).Halt? ==> ErrorForm(src, Step(v, src, st).error, Step(v, src, st).position)
  {
    var c := src[st.pos] as int;
    match st.status
    case NumberStatus => NumberHalts(src, st, c);
    case BlankStatus => assert Step(v, src, st) == BlankStep(src, st, c);
    case WordStatus => assert Step(v, src, st) == WordStep(v, src, st, c);
    case SymbolStatus => assert Step(v, src, st) == SymbolStep(src, st, c);
    case StringStatus => assert Step(v, src, st) == StringStep(v, src, st, c);
  }

  lemma {:induction false} RunErrors(v: Version, src: string, st: Scan)
    requires Shaped(v, src, st)
    ensures Run(v, src, st).ScanError? ==> ErrorForm(src, Run(v, src, st).error, Run(v, src, st).position)
    decreases |src| + 2 - st.pos
  {
    if st.pos < |src| {
      StepShaped(v, src, st);
      StepHalts(v, src, st);
      if Step(v, src, st).Continue? {
        RunErrors(v, src, Step(v, src, st).scan);
      }
    }
  }

  /** A scan that fails reports a letter met inside a number, at the letter's
      offset, or a string still open at the end of the text, one past the last
      character (the position of the appended blank's end). */
  lemma {:induction false} TokenizeErrors(v: Version, source: string)
    ensures Tokenize(v, source).ScanError? ==>
              var e := Tokenize(v, source);
              (0 <= e.position < |source| && IsLetter(source[e.position] as int)
               && e.error == "SyntaxError: Unexpected token " + [source[e.position]])
              || (e.error == "SyntaxError: Unexpected end of input" && e.position == |source| + 1)
  {
    var src := source + " ";
    RunErrors(v, src, Start);
    if Tokenize(v, source).ScanError? {
      var e := Tokenize(v, source);
      if 0 <= e.position < |src| && IsLetter(src[e.position] as int) {
        assert e.position < |source|;
        assert src[e.position] == source[e.position];
      }
    }
  }

  // ---------------------------------------------------------------------------
  // Nothing is lost (the corrected scanner)

  /** A character that is neither a blank nor whitespace to trim. */
  predicate Visible(c: char) { !Lexer.IsBlankCode(c as int) && !IsJsWhitespace(c) }

  /** Some word's slice contains index `k` of the text. */
  predicate Covering(ws: seq<Word>, k: int)
    decreases |ws|
  {
    ws != [] && ((ws[|ws| - 1].start <= k < Extent(ws[|ws| - 1])) || Covering(ws[..|ws| - 1], k))
  }

  lemma {:induction false} CoveringSome(ws: seq<Word>, k: int)
    requires Covering(ws, k)
    ensures exists i :: 0 <= i < |ws| && ws[i].start <= k < Extent(ws[i])
    decreases |ws|
  {
    var last := ws[|ws| - 1];
    if !(last.start <= k < Extent(last)) {
      var init := ws[..|ws| - 1];
      CoveringSome(init, k);
      var i :| 0 <= i < |init| && init[i].start <= k < Extent(init[i]);
      assert ws[i] == init[i];
    }
  }

  /** Every visible character from `a` up to `b` lies in some word. */
  predicate CoveredBy(src: string, ws: seq<Word>, a: int, b: int)
    requires 0 <= a && b <= |src|
  {
    forall k :: a <= k < b && Visible(src[k]) ==> Covering(ws, k)
  }

  /** The scan has lost no visible character: each one before the word being
      collected lies in a word, and while the scanner is between words it has only
      passed blanks. */
  predicate Covered(src: string, st: Scan) {
    0 <= st.lastPos <= st.pos <= |src|
    && CoveredBy(src, st.words, 0, st.lastPos)
    && (st.status == BlankStatus ==> forall k :: st.lastPos <= k < st.pos ==> Lexer.IsBlankCode(src[k] as int))
  }

  lemma {:induction false} CoveredSnoc(src: string, ws: seq<Word>, w: Word, a: int, b: int)
    requires 0 <= a <= b <= |src| && CoveredBy(src, ws, 0, a)
    requires forall k :: a <= k < b && Visible(src[k]) ==> w.start <= k < Extent(w)
    ensures CoveredBy(src, ws + [w], 0, b)
  {
    var vs := ws + [w];
    assert vs[..|vs| - 1] == ws;
  }

  lemma {:induction false} CoveredBlanks(src: string, ws: seq<Word>, a: int, b: int)
    requires 0 <= a <= b <= |src| && CoveredBy(src, ws, 0, a)
    requires forall k :: a <= k < b ==> Lexer.IsBlankCode(src[k] as int)
    ensures CoveredBy(src, ws, 0, b)
  {
  }

  lemma {:induction false} OpenCovered(src: string, u: Scan, s: Status)
    requires 0 <= u.lastPos == u.pos < |src| && CoveredBy(src, u.words, 0, u.pos)
    requires s == BlankStatus ==> Lexer.IsBlankCode(src[u.pos] as int)
    ensures Covered(src, Advance(u.(status := s)).scan)
  {
  }

  lemma {:induction false} QuoteCovered(src: string, u: Scan, q: int)
    requires 0 <= u.lastPos == u.pos < |src| && CoveredBy(src, u.words, 0, u.pos)
    ensures Covered(src, Advance(u.(quote := q, status := StringStatus)).scan)
  {
  }

  lemma {:induction false} BlankCovered(src: string, t: Scan, c: int)
    requires Covered(src, t) && Ready(src, t) && t.status == BlankStatus && c == src[t.pos] as int
    ensures BlankStep(src, t, c).Continue? ==> Covered(src, BlankStep(src, t, c).scan)
  {
    var u := Push(src, t, Some(Blank), t.pos);
    assert u.words == t.words;
    CoveredBlanks(src, t.words, t.lastPos, t.pos);
    if Lexer.IsDigit(c) {
      OpenCovered(src, u, NumberStatus);
    } else if IsLetter(c) {
      OpenCovered(src, u, WordStatus);
    } else if Lexer.IsQuote(c) {
      QuoteCovered(src, u, c);
    } else if !Lexer.IsBlankCode(c) {
      OpenCovered(src, u, SymbolStatus);
    }
  }

  /** Pushing a number or a name collected from lastPos up to the current
      character covers that stretch. */
  lemma {:induction false} RunPushCovered(v: Version, src: string, t: Scan, kind: Option<TokenKind>)
    requires Shaped(v, src, t) && Covered(src, t) && Ready(src, t)
    requires (t.status == NumberStatus && kind == Some(Number)) || (t.status == WordStatus && kind == NameKind(v))
    ensures CoveredBy(src, Push(src, t, kind, t.pos).words, 0, t.pos)
  {
    var w := Word(kind, t.lastPos, src[t.lastPos..t.pos]);
    if kind == Some(Number) {
      NumberMade(v, src, t.lastPos, t.pos);
    } else {
      NameMade(v, src, t.lastPos, t.pos);
    }
    assert Push(src, t, kind, t.pos).words == t.words + [w];
    CoveredSnoc(src, t.words, w, t.lastPos, t.pos);
  }

  lemma {:induction false} NumberCovered(src: string, t: Scan, c: int)
    requires Shaped(Intended, src, t) && Covered(src, t) && Ready(src, t) && t.status == NumberStatus
    requires c == src[t.pos] as int
    ensures NumberStep(src, t, c).Continue? ==> Covered(src, NumberStep(src, t, c).scan)
  {
    NumberCases(src, t, c);
    var r := NumberStep(src, t, c);
    if r.Continue? && !Kept(t, r.scan) {
      RunPushCovered(Intended, src, t, Some(Number));
      var u := Push(src, t, Some(Number), t.pos);
      if Lexer.IsBlankCode(c) {
        OpenCovered(src, u, BlankStatus);
      } else {
        OpenCovered(src, u, SymbolStatus);
      }
    }
  }

  lemma {:induction false} WordCovered(src: string, t: Scan, c: int)
    requires Shaped(Intended, src, t) && Covered(src, t) && Ready(src, t) && t.status == WordStatus
    requires c == src[t.pos] as int
    ensures WordStep(Intended, src, t, c).Continue? ==> Covered(src, WordStep(Intended, src, t, c).scan)
  {
    if !(Lexer.IsDigit(c) || IsLetter(c)) {
      RunPushCovered(Intended, src, t, NameKind(Intended));
      var u := Push(src, t, NameKind(Intended), t.pos);
      if Lexer.IsBlankCode(c) {
        OpenCovered(src, u, BlankStatus);
      } else {
        OpenCovered(src, u, SymbolStatus);
      }
    }
  }

  /** A visible symbol character is the symbol's word. */
  lemma {:induction false} SymbolCovers(src: string, a: int)
    requires 0 <= a < |src|
    ensures Visible(src[a]) ==> a < Extent(Word(Some(Symbol), a, Trim(src[a..a + 1])))
  {
    CharTrimmed(src[a..a + 1]);
  }

  lemma {:induction false} SymbolPushCovered(src: string, t: Scan)
    requires 0 <= t.lastPos && t.pos == t.lastPos + 1 <= |src| && SymbolChar(src[t.lastPos])
    requires CoveredBy(src, t.words, 0, t.lastPos)
    ensures CoveredBy(src, Push(src, t, Some(Symbol), t.pos).words, 0, t.pos)
  {
    var w := Word(Some(Symbol), t.lastPos, Trim(src[t.lastPos..t.pos]));
    SymbolCovers(src, t.lastPos);
    CoveredSnocOne(src, t.words, w, t.lastPos);
    SymbolPushWords(src, t);
  }

  lemma {:induction false} SymbolPushWords(src: string, t: Scan)
    requires 0 <= t.lastPos && t.pos == t.lastPos + 1 <= |src|
    ensures Push(src, t, Some(Symbol), t.pos).words == t.words + [Word(Some(Symbol), t.lastPos, Trim(src[t.lastPos..t.pos]))]
  {
  }

  lemma {:induction false} CoveredSnocOne(src: string, ws: seq<Word>, w: Word, a: int)
    requires 0 <= a < |src| && CoveredBy(src, ws, 0, a)
    requires Visible(src[a]) ==> w.start <= a < Extent(w)
    ensures CoveredBy(src, ws + [w], 0, a + 1)
  {
    CoveredSnoc(src, ws, w, a, a + 1);
  }

  lemma {:induction false} SymbolCovered(src: string, t: Scan, c: int)
    requires Shaped(Intended, src, t) && Covered(src, t) && Ready(src, t) && t.status == SymbolStatus
    requires c == src[t.pos] as int
    ensures SymbolStep(src, t, c).Continue? ==> Covered(src, SymbolStep(src, t, c).scan)
  {
    SymbolPushCovered(src, t);
    var u := Push(src, t, Some(Symbol), t.pos);
    if Lexer.IsDigit(c) {
      OpenCovered(src, u, NumberStatus);
    } else if IsLetter(c) {
      OpenCovered(src, u, WordStatus);
    } else if Lexer.IsBlankCode(c) {
      OpenCovered(src, u, BlankStatus);
    } else {
      OpenCovered(src, u, SymbolStatus);
    }
  }

  lemma {:induction false} CloseCovered(src: string, t: Scan)
    requires 0 <= t.lastPos < t.pos < |src| - 1 && CoveredBy(src, t.words, 0, t.lastPos)
    requires Lexer.IsQuote(src[t.lastPos] as int) && src[t.pos] == src[t.lastPos]
    ensures CoveredBy(src, Push(src, t, Some(Str), t.pos + 1).words, 0, t.pos + 1)
  {
    StringMade(Intended, src, t.lastPos, t.pos);
    var w := Word(Some(Str), t.lastPos, src[t.lastPos + 1..t.pos]);
    assert Push(src, t, Some(Str), t.pos + 1).words == t.words + [w];
    CoveredSnoc(src, t.words, w, t.lastPos, t.pos + 1);
  }

  lemma {:induction false} StringCovered(src: string, t: Scan, c: int)
    requires Shaped(Intended, src, t) && Covered(src, t) && Ready(src, t) && t.status == StringStatus
    requires c == src[t.pos] as int
    ensures StringStep(Intended, src, t, c).Continue? ==> Covered(src, StringStep(Intended, src, t, c).scan)
  {
    if StringEnds(t, c) {
      StringCloseCovered(src, t, c);
    } else {
      StringKeeps(Intended, src, t, c);
    }
  }

  lemma {:induction false} StringCloseCovered(src: string, t: Scan, c: int)
    requires Closed(src) && Ready(src, t) && t.lastPos < t.pos && CoveredBy(src, t.words, 0, t.lastPos)
    requires Lexer.IsQuote(src[t.lastPos] as int) && t.quote == src[t.lastPos] as int
    requires c == src[t.pos] as int && StringEnds(t, c)
    ensures Covered(src, StringStep(Intended, src, t, c).scan)
  {
    assert src[t.pos] == src[t.lastPos];
    QuoteNotLast(src, t.pos);
    CloseCovered(src, t);
    StringCloseStep(Intended, src, t, c);
  }

  lemma {:induction false} StepCovered(src: string, st: Scan)
    requires Shaped(Intended, src, st) && Covered(src, st) && Ready(src, st)
    ensures Step(Intended, src, st).Continue? ==> Covered(src, Step(Intended, src, st).scan)
  {
    var c := src[st.pos] as int;
    match st.status
    case BlankStatus => BlankCovered(src, st, c);
    case NumberStatus => NumberCovered(src, st, c);
    case WordStatus => WordCovered(src, st, c);
    case SymbolStatus => SymbolCovered(src, st, c);
    case StringStatus => StringCovered(src, st, c);
  }

  lemma {:induction false} RunCovered(src: string, st: Scan)
    requires Shaped(Intended, src, st) && Covered(src, st)
    ensures Run(Intended, src, st).Words? ==> CoveredBy(src, Run(Intended, src, st).words, 0, |src|)
    decreases |src| + 2 - st.pos
  {
    if st.pos < |src| {
      StepShaped(Intended, src, st);
      StepCovered(src, st);
      if Step(Intended, src, st).Continue? {
        RunCovered(src, Step(Intended, src, st).scan);
      }
    } else if st.status == BlankStatus {
      CoveredBlanks(src, st.words, st.lastPos, |src|);
    }
  }

  /** With the character after a closing quote read again, no visible character of
      the source is dropped: each lies in the slice of some word. */
  lemma {:induction false} TokenizeCovers(source: string)
    ensures Tokenize(Intended, source).Words? ==>
              forall k :: 0 <= k < |source| && Visible(source[k]) ==>
                exists i :: 0 <= i < |Tokenize(Intended, source).words|
                  && Tokenize(Intended, source).words[i].start <= k < Extent(Tokenize(Intended, source).words[i])
  {
    var src := source + " ";
    RunCovered(src, Start);
    if Tokenize(Intended, source).Words? {
      var ws := Tokenize(Intended, source).words;
      forall k | 0 <= k < |source| && Visible(source[k])
        ensures exists i :: 0 <= i < |ws| && ws[i].start <= k < Extent(ws[i])
      {
        assert src[k] == source[k];
        CoveringSome(ws, k);
      }
    }
  }
}

/** The older scanner on particular texts, and the rules of its number and string
    states one character at a time. */
module LegacyLexerExamples {
  import opened Tokens
  import Lexer
  import LexerFacts
  import opened LegacyLexer
  import opened LegacyLexerFacts

  /** One step of a run. */
  lemma RunStep(v: Version, src: string, st: Scan, next: Scan)
    requires Bounded(src, st) && st.pos < |src| && Step(v, src, st) == Continue(next)
    ensures Run(v, src, st) == Run(v, src, next)
  {
  }

  /** The character after a closing quote is skipped as written: in `'a'+b` the
      plus sign is lost. */
  lemma SkipAfterQuote()
    ensures Tokenize(AsWritten, "'a'+b") == Words([Word(Some(Str), 0, "a"), Word(None, 4, "b")])
  {
    var src := "'a'+b" + " ";
    assert QuotePlus(src);
    var a := [Word(Some(Str), 0, "a")];
    var s1 := Scan(1, 0, StringStatus, 39, false, false, false, false, []);
    var s2 := s1.(pos := 2);
    var s3 := Scan(4, 3, BlankStatus, NoQuote, false, false, false, false, a);
    var s4 := Scan(5, 4, WordStatus, NoQuote, false, false, false, false, a);
    var s5 := Scan(6, 5, BlankStatus, NoQuote, false, false, false, false, a + [Word(None, 4, "b")]);
    SkipOpen(src, s1);
    RunStep(AsWritten, src, Start, s1);
    SkipInside(src, s1, s2);
    RunStep(AsWritten, src, s1, s2);
    SkipClose(src, s2, s3);
    RunStep(AsWritten, src, s2, s3);
    SkipLetter(src, s3, s4);
    RunStep(AsWritten, src, s3, s4);
    SkipName(src, s4, s5);
    RunStep(AsWritten, src, s4, s5);
    RunEnd(AsWritten, src, s5);
  }

  /** The run stops once the position reaches the end. */
  lemma RunEnd(v: Version, src: string, st: Scan)
    requires Bounded(src, st) && st.pos == |src| && st.status == BlankStatus
    ensures Run(v, src, st) == Words(st.words)
  {
  }

  /** The text of the example, character by character. */
  predicate QuotePlus(src: string) {
    |src| == 6 && src[0] == '\'' && src[1] == 'a' && src[2] == '\'' && src[3] == '+' && src[4] == 'b' && src[5] == ' '
  }

  lemma SkipOpen(src: string, s1: Scan)
    requires QuotePlus(src) && s1 == Scan(1, 0, StringStatus, 39, false, false, false, false, [])
    ensures Step(AsWritten, src, Start) == Continue(s1)
  {
  }

  lemma SkipInside(src: string, s1: Scan, s2: Scan)
    requires QuotePlus(src) && s1 == Scan(1, 0, StringStatus, 39, false, false, false, false, [])
    requires s2 == s1.(pos := 2)
    ensures Step(AsWritten, src, s1) == Continue(s2)
  {
  }

  lemma SkipClose(src: string, s2: Scan, s3: Scan)
    requires QuotePlus(src) && s2 == Scan(2, 0, StringStatus, 39, false, false, false, false, [])
    requires s3 == Scan(4, 3, BlankStatus, NoQuote, false, false, false, false, [Word(Some(Str), 0, "a")])
    ensures Step(AsWritten, src, s2) == Continue(s3)
  {
    StringMade(AsWritten, src, 0, 2);
    assert src[1..2] == "a";
  }

  lemma SkipLetter(src: string, s3: Scan, s4: Scan)
    requires QuotePlus(src)
    requires s3 == Scan(4, 3, BlankStatus, NoQuote, false, false, false, false, [Word(Some(Str), 0, "a")])
    requires s4 == Scan(5, 4, WordStatus, NoQuote, false, false, false, false, [Word(Some(Str), 0, "a")])
    ensures Step(AsWritten, src, s3) == Continue(s4)
  {
  }

  lemma SkipName(src: string, s4: Scan, s5: Scan)
    requires QuotePlus(src)
    requires s4 == Scan(5, 4, WordStatus, NoQuote, false, false, false, false, [Word(Some(Str), 0, "a")])
    requires s5 == Scan(6, 5, BlankStatus, NoQuote, false, false, false, false, [Word(Some(Str), 0, "a"), Word(None, 4, "b")])
    ensures Step(AsWritten, src, s4) == Continue(s5)
  {
    SliceTrimmed(src, 4, 5);
    assert src[4..5] == "b";
  }

  /** No word of `'a'+b` as written covers the plus sign at offset 3, although it
      is visible: the coverage the corrected scan has fails here. */
  lemma PlusLost()
    ensures Tokenize(AsWritten, "'a'+b").Words?
    ensures Visible(("'a'+b")[3])
    ensures forall i :: 0 <= i < |Tokenize(AsWritten, "'a'+b").words| ==>
              !(Tokenize(AsWritten, "'a'+b").words[i].start <= 3 < Extent(Tokenize(AsWritten, "'a'+b").words[i]))
  {
    SkipAfterQuote();
  }

  /** The text `ab`, character by character. */
  predicate TwoLetters(src: string) {
    |src| == 3 && src[0] == 'a' && src[1] == 'b' && src[2] == ' '
  }

  /** As written a name is pushed with the kind WORD.WORD, which does not exist:
      `ab` becomes one word whose kind is undefined. */
  lemma NameUntyped()
    ensures Tokenize(AsWritten, "ab") == Words([Word(None, 0, "ab")])
  {
    var src := "ab" + " ";
    assert TwoLetters(src);
    var s1 := Scan(1, 0, WordStatus, NoQuote, false, false, false, false, []);
    var s2 := s1.(pos := 2);
    var s3 := Scan(3, 2, BlankStatus, NoQuote, false, false, false, false, [Word(None, 0, "ab")]);
    UntypedFirst(src, s1);
    RunStep(AsWritten, src, Start, s1);
    UntypedSecond(src, s1, s2);
    RunStep(AsWritten, src, s1, s2);
    UntypedEnd(src, s2, s3);
    RunStep(AsWritten, src, s2, s3);
    RunEnd(AsWritten, src, s3);
  }

  lemma UntypedFirst(src: string, s1: Scan)
    requires TwoLetters(src) && s1 == Scan(1, 0, WordStatus, NoQuote, false, false, false, false, [])
    ensures Step(AsWritten, src, Start) == Continue(s1)
  {
  }

  lemma UntypedSecond(src: string, s1: Scan, s2: Scan)
    requires TwoLetters(src) && s1 == Scan(1, 0, WordStatus, NoQuote, false, false, false, false, [])
    requires s2 == s1.(pos := 2)
    ensures Step(AsWritten, src, s1) == Continue(s2)
  {
  }

  lemma UntypedEnd(src: string, s2: Scan, s3: Scan)
    requires TwoLetters(src) && s2 == Scan(2, 0, WordStatus, NoQuote, false, false, false, false, [])
    requires s3 == Scan(3, 2, BlankStatus, NoQuote, false, false, false, false, [Word(None, 0, "ab")])
    ensures Step(AsWritten, src, s2) == Continue(s3)
  {
    assert src[0..2] == "ab";
    SliceTrimmed(src, 0, 2);
    var u := Push(src, s2, NameKind(AsWritten), 2);
    assert u.words == [Word(None, 0, "ab")];
    assert Step(AsWritten, src, s2) == WordStep(AsWritten, src, s2, 32);
  }

  /** The text `1e2e`, character by character. */
  predicate TwoExponents(src: string) {
    |src| == 5 && src[0] == '1' && src[1] == 'e' && src[2] == '2' && src[3] == 'e' && src[4] == ' '
  }

  /** A number takes one exponent only: in `1e2e` the second `e` is an error at
      offset 3. */
  lemma SecondExponent(v: Version)
    ensures Tokenize(v, "1e2e") == ScanError("SyntaxError: Unexpected token e", 3)
  {
    var src := "1e2e" + " ";
    assert TwoExponents(src);
    var s1 := Scan(1, 0, NumberStatus, NoQuote, false, false, false, false, []);
    var s2 := s1.(pos := 2, hasE := true);
    var s3 := s2.(pos := 3);
    ExponentDigit(v, src, s1);
    RunStep(v, src, Start, s1);
    ExponentFirst(v, src, s1, s2);
    RunStep(v, src, s1, s2);
    ExponentAfter(v, src, s2, s3);
    RunStep(v, src, s2, s3);
    ExponentSecond(v, src, s3);
  }

  lemma ExponentDigit(v: Version, src: string, s1: Scan)
    requires TwoExponents(src) && s1 == Scan(1, 0, NumberStatus, NoQuote, false, false, false, false, [])
    ensures Step(v, src, Start) == Continue(s1)
  {
  }

  lemma ExponentFirst(v: Version, src: string, s1: Scan, s2: Scan)
    requires TwoExponents(src) && s1 == Scan(1, 0, NumberStatus, NoQuote, false, false, false, false, [])
    requires s2 == s1.(pos := 2, hasE := true)
    ensures Step(v, src, s1) == Continue(s2)
  {
    NumberFirstExponent(v, src, s1);
  }

  lemma ExponentAfter(v: Version, src: string, s2: Scan, s3: Scan)
    requires TwoExponents(src) && s2 == Scan(2, 0, NumberStatus, NoQuote, true, false, false, false, [])
    requires s3 == s2.(pos := 3)
    ensures Step(v, src, s2) == Continue(s3)
  {
  }

  lemma ExponentSecond(v: Version, src: string, s3: Scan)
    requires TwoExponents(src) && s3 == Scan(3, 0, NumberStatus, NoQuote, true, false, false, false, [])
    ensures Run(v, src, s3) == ScanError("SyntaxError: Unexpected token e", 3)
  {
    NumberLetterFails(v, src, s3);
    assert [src[3]] == "e";
  }
}
