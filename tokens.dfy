/** Token kinds, token records, keyword tables and the string helpers shared by the
    lexers, the classifier and the statement parsers (lib/compiler/define.js and its
    bundled copies). */
module Tokens {

  datatype Option<T> = None | Some(value: T)

  /** The token-kind enum.  `Name` is transient: the classifier turns every name into
      `Keyword` or `Identifier`. */
  datatype TokenKind = Blank | Symbol | Number | Str | Name | Keyword | Identifier | Comment
  {
    /** The numeric constant the enum gives each kind. */
    function Code(): (n: nat)
      ensures n == 0 || n == 1 || n == 2 || n == 4 || n == 8 || n == 16 || n == 32 || n == 64
      ensures Blank? <==> n == 0
    {
      match this
      case Blank => 0
      case Symbol => 1
      case Number => 2
      case Str => 4
      case Name => 8
      case Keyword => 16
      case Identifier => 32
      case Comment => 64
    }
  }

  /** A token record `{type, line, column, text}`; `nested` is the extra flag the
      parsers put on the `return` token they append to a nested body. */
  datatype Token = Token(kind: TokenKind, line: int, column: int, text: string, nested: bool)

  /** createNewToken: a token without the nested flag. */
  function NewToken(kind: TokenKind, line: int, column: int, text: string): (t: Token)
    ensures t.kind == kind && t.line == line && t.column == column && t.text == text && !t.nested
  {
    Token(kind, line, column, text, false)
  }

  predicate IsSymbol(t: Token, s: string) { t.kind == Symbol && t.text == s }

  predicate IsKeywordToken(t: Token, s: string) { t.kind == Keyword && t.text == s }

  /** The keyword list of the current compiler. */
  const BrightKeywords: seq<string> := [
    "await", "argument", "break", "continue", "defer", "else", "elseif", "false",
    "for", "function", "if", "in", "javascript", "let", "NaN", "null", "return",
    "sleep", "throw", "true", "undefined", "var"]

  /** The keyword list of the intermediate (Tea) compiler. */
  const TeaKeywords: seq<string> := [
    "argument", "require", "var", "let", "if", "else", "elseif", "for", "in",
    "break", "continue", "return", "await", "defer", "true", "false", "null",
    "undefined", "NaN"]

  /** Names that are keywords to the lexer but always end up as identifiers. */
  const LiteralNames: seq<string> := ["true", "false", "null", "undefined", "NaN"]

  /** A piece of code as the source writes it, or with a slip the README's
      "Findings" describe corrected. */
  datatype Version = AsWritten | Intended

  /** A compile-time failure: a syntax error carrying a message and the position of
      the offending token, or a host TypeError raised by the compiler itself (a
      property read on a missing token). */
  datatype Failure = SyntaxError(message: string, line: int, column: int) | Crash

  /** throwError(t, e): the message defaults to `Unexpected token <text>`. */
  function ErrorAt(t: Token, message: string): (f: Failure)
    ensures f.SyntaxError? && f.line == t.line && f.column == t.column
    ensures message != "" ==> f.message == message
    ensures message == "" ==> f.message == "Unexpected token " + t.text
  {
    SyntaxError(if message == "" then "Unexpected token " + t.text else message, t.line, t.column)
  }

  /** The failure a compiler's parse entry point reports for a failed statement: a
      syntax error gets the `SyntaxError: ` prefix, a host error passes through. */
  function Reported(f: Failure): (g: Failure)
    ensures f.SyntaxError? <==> g.SyntaxError?
    ensures f.SyntaxError? ==> g == SyntaxError("SyntaxError: " + f.message, f.line, f.column)
    ensures f.Crash? ==> g.Crash?
  {
    match f
    case SyntaxError(m, l, c) => SyntaxError("SyntaxError: " + m, l, c)
    case Crash => Crash
  }

  datatype Outcome = Pass | Fail(failure: Failure)

  datatype Result<T> = Ok(value: T) | Err(failure: Failure)

  // ---------------------------------------------------------------------------
  // String helpers

  function DigitChar(d: nat): (c: char)
    requires d < 10
    ensures '0' <= c <= '9'
  {
    "0123456789"[d]
  }

  function NatToString(n: nat): (s: string)
    ensures s != []
    ensures forall i :: 0 <= i < |s| ==> '0' <= s[i] <= '9'
    decreases n
  {
    if n < 10 then [DigitChar(n)] else NatToString(n / 10) + [DigitChar(n % 10)]
  }

  /** Decimal rendering of a JavaScript integer, as string concatenation does it. */
  function IntToString(n: int): (s: string)
    ensures s != []
    ensures n < 0 <==> s[0] == '-'
  {
    if n < 0 then "-" + NatToString(-n) else NatToString(n)
  }

  /** Array.prototype.join. */
  function Join(parts: seq<string>, sep: string): (s: string)
    ensures parts == [] ==> s == ""
    ensures |parts| == 1 ==> s == parts[0]
    decreases |parts|
  {
    if parts == [] then ""
    else if |parts| == 1 then parts[0]
    else parts[0] + sep + Join(parts[1..], sep)
  }

  /** The concatenation of the texts of a token list (`text += t.text` over a list). */
  function Texts(ts: seq<Token>): string
    decreases |ts|
  {
    if ts == [] then "" else ts[0].text + Texts(ts[1..])
  }

  lemma {:induction false} TextsAppend(a: seq<Token>, b: seq<Token>)
    ensures Texts(a + b) == Texts(a) + Texts(b)
    decreases |a|
  {
    if a == [] {
      assert a + b == b;
    } else {
      assert (a + b)[1..] == a[1..] + b;
      TextsAppend(a[1..], b);
    }
  }

  lemma TextsConcat3(p: seq<Token>, m: seq<Token>, q: seq<Token>)
    ensures Texts(p + m + q) == Texts(p) + Texts(m) + Texts(q)
  {
    TextsAppend(p + m, q);
    TextsAppend(p, m);
  }

  lemma TextsSingle(x: Token)
    ensures Texts([x]) == x.text
  {
    assert Texts([x]) == x.text + Texts([]);
  }

  lemma SliceRejoin(ts: seq<Token>, a: int, b: int)
    requires 0 <= a <= b <= |ts|
    ensures ts[..a] + ts[a..b] + ts[b..] == ts
  {
    assert ts[..a] + ts[a..b] == ts[..b];
  }

  /** The characters String.prototype.trim removes (WhiteSpace and LineTerminator). */
  predicate IsJsWhitespace(c: char) {
    var n := c as int;
    (9 <= n <= 13) || n == 32 || n == 0xA0 || n == 0x1680 || (0x2000 <= n <= 0x200A)
    || n == 0x2028 || n == 0x2029 || n == 0x202F || n == 0x205F || n == 0x3000 || n == 0xFEFF
  }

  function TrimLeft(s: string): (r: string)
    ensures |r| <= |s| && r == s[|s| - |r|..]
    ensures r != [] ==> !IsJsWhitespace(r[0])
    ensures s != [] && !IsJsWhitespace(s[0]) ==> r == s
    decreases |s|
  {
    if s != [] && IsJsWhitespace(s[0]) then TrimLeft(s[1..]) else s
  }

  function TrimRight(s: string): (r: string)
    ensures |r| <= |s| && r == s[..|r|]
    ensures r != [] ==> !IsJsWhitespace(r[|r| - 1])
    ensures s != [] && !IsJsWhitespace(s[|s| - 1]) ==> r == s
    ensures forall i :: 0 <= i < |s| && !IsJsWhitespace(s[i]) ==> i < |r|
    decreases |s|
  {
    if s != [] && IsJsWhitespace(s[|s| - 1]) then TrimRight(s[..|s| - 1]) else s
  }

  /** String.prototype.trim. */
  function Trim(s: string): (r: string)
    ensures |r| <= |s|
    ensures r != [] ==> !IsJsWhitespace(r[0]) && !IsJsWhitespace(r[|r| - 1])
  {
    TrimRight(TrimLeft(s))
  }

  lemma TrimKeepsFirst(s: string)
    requires s != [] && !IsJsWhitespace(s[0])
    ensures Trim(s) != [] && Trim(s)[0] == s[0]
  {
  }

  /** `replace(/\n/gm, '\\n').replace(/\r/gm, '\\r')`: raw line breaks become the
      two-character escapes. */
  function EscapeLineBreaks(s: string): (r: string)
    ensures '\n' !in r && '\r' !in r
    ensures |r| >= |s|
    ensures s != [] && s[0] != '\n' && s[0] != '\r' ==> r != [] && r[0] == s[0]
    ensures s != [] && s[|s| - 1] != '\n' && s[|s| - 1] != '\r' ==> r != [] && r[|r| - 1] == s[|s| - 1]
    decreases |s|
  {
    if s == [] then ""
    else if s[0] == '\n' then "\\n" + EscapeLineBreaks(s[1..])
    else if s[0] == '\r' then "\\r" + EscapeLineBreaks(s[1..])
    else [s[0]] + EscapeLineBreaks(s[1..])
  }

  /** `replace(/\r|\n/img, '')`. */
  function StripLineBreaks(s: string): (r: string)
    ensures '\n' !in r && '\r' !in r
    ensures |r| <= |s|
    ensures forall c :: c in s && c != '\n' && c != '\r' ==> c in r
    decreases |s|
  {
    if s == [] then ""
    else if s[0] == '\n' || s[0] == '\r' then StripLineBreaks(s[1..])
    else [s[0]] + StripLineBreaks(s[1..])
  }

  /** Trim removes exactly a whitespace prefix and a whitespace suffix: what it
      returns is the slice of the text between them. */
  lemma TrimIsSlice(s: string, a: int, r: string)
    requires a == |s| - |TrimLeft(s)| && r == Trim(s)
    ensures 0 <= a && a + |r| <= |s| && r == s[a..a + |r|]
    ensures AllBlank(s, 0, a) && AllBlank(s, a + |r|, |s|)
  {
    var l := TrimLeft(s);
    assert r == TrimRight(l);
    TrimLeftDrops(s);
    TrimRightOf(s, l, a, r);
  }

  /** Every character from `i` up to `j` is whitespace. */
  predicate AllBlank(s: string, i: int, j: int)
    requires 0 <= i && j <= |s|
  {
    forall k :: i <= k < j ==> IsJsWhitespace(s[k])
  }

  lemma TrimRightOf(s: string, l: string, a: int, r: string)
    requires 0 <= a <= |s| && l == s[a..] && r == TrimRight(l)
    ensures a + |r| <= |s| && r == s[a..a + |r|]
    ensures AllBlank(s, a + |r|, |s|)
  {
    forall k | a + |r| <= k < |s| ensures IsJsWhitespace(s[k]) {
      assert s[k] == l[k - a];
    }
  }

  lemma {:induction false} TrimLeftDrops(s: string)
    ensures AllBlank(s, 0, |s| - |TrimLeft(s)|)
    decreases |s|
  {
    if s != [] && IsJsWhitespace(s[0]) {
      TrimLeftDrops(s[1..]);
      forall k | 0 <= k < |s| - |TrimLeft(s)| ensures IsJsWhitespace(s[k]) {
        if k > 0 {
          assert s[k] == s[1..][k - 1];
        }
      }
    }
  }

  /** Escaping works character by character: it distributes over concatenation, ... */
  lemma {:induction false} EscapeAppend(a: string, b: string)
    ensures EscapeLineBreaks(a + b) == EscapeLineBreaks(a) + EscapeLineBreaks(b)
    decreases |a|
  {
    if a == [] {
      assert a + b == b;
    } else {
      assert (a + b)[0] == a[0] && (a + b)[1..] == a[1..] + b;
      EscapeAppend(a[1..], b);
      var h := if a[0] == '\n' then "\\n" else if a[0] == '\r' then "\\r" else [a[0]];
      SeqAssociative(h, EscapeLineBreaks(a[1..]), EscapeLineBreaks(b));
    }
  }

  /** ... a line feed becomes backslash-n, a carriage return backslash-r, and any
      other character stays as it is. */
  lemma EscapeChar(c: char)
    ensures c == '\n' ==> EscapeLineBreaks([c]) == ['\\', 'n']
    ensures c == '\r' ==> EscapeLineBreaks([c]) == ['\\', 'r']
    ensures c != '\n' && c != '\r' ==> EscapeLineBreaks([c]) == [c]
  {
    assert [c][1..] == [];
  }

  /** Stripping is the order-preserving filter that drops line breaks: it
      distributes over concatenation, ... */
  lemma {:induction false} StripAppend(a: string, b: string)
    ensures StripLineBreaks(a + b) == StripLineBreaks(a) + StripLineBreaks(b)
    decreases |a|
  {
    if a == [] {
      assert a + b == b;
    } else {
      assert (a + b)[0] == a[0] && (a + b)[1..] == a[1..] + b;
      StripAppend(a[1..], b);
      if a[0] != '\n' && a[0] != '\r' {
        SeqAssociative([a[0]], StripLineBreaks(a[1..]), StripLineBreaks(b));
      }
    }
  }

  /** ... a line break becomes nothing, and any other character stays. */
  lemma StripChar(c: char)
    ensures c == '\n' || c == '\r' ==> StripLineBreaks([c]) == []
    ensures c != '\n' && c != '\r' ==> StripLineBreaks([c]) == [c]
  {
    assert [c][1..] == [];
  }

  /** The indentation getIndentSpace produces: two spaces per level. */
  function Indentation(indent: int): (s: string)
    ensures |s| == if indent > 0 then 2 * indent else 0
    ensures forall i :: 0 <= i < |s| ==> s[i] == ' '
    decreases indent
  {
    if indent <= 0 then "" else Indentation(indent - 1) + "  "
  }

  /** Concatenation groups either way. */
  lemma SeqAssociative<T>(a: seq<T>, b: seq<T>, c: seq<T>)
    ensures a + b + c == a + (b + c)
  {
  }
}
