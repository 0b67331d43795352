/** exports.parse of build/tea.js with the top level of its syntax.parse: the source
    is scanned and classified, the tokens (with a closing `return` when there are
    any) are compiled from depth 2 into one context, and the context becomes the
    compiled function, which first checks its argument count. */
module TeaCompiler {
  import opened Tokens
  import opened Lexer
  import LexerFacts
  import Classifier
  import opened TeaRules
  import TeaParser
  import ParseContext

  /** The compiled program, or the error the compiler throws.  A scanning error is
      reported with its own message and position; a statement's error with the
      prefix and the position of its token.  The compiled function's parameters are
      the declared arguments followed by the callback, and it checks that it gets
      exactly that many.  `AsWritten` classifies the tokens as the bundle does;
      `Intended` with the classifier's slips corrected. */
  method Compile(v: Version, source: string)
      returns (r: Result<string>, ghost args: seq<string>, ghost vars: seq<string>, ghost defers: seq<string>, ghost code: seq<string>)
    ensures Classifier.Parse(v, Tea, source).LexFailure? ==> (
      var e := Classifier.Parse(v, Tea, source);
      r == Err(SyntaxError(e.error, e.line, e.column)))
    ensures r.Err? && r.failure.SyntaxError? && Classifier.Parse(v, Tea, source).Tokens? ==>
      "SyntaxError: " <= r.failure.message
    ensures r.Ok? ==> Classifier.Parse(v, Tea, source).Tokens? && r.value == TeaWrap(args, vars, defers, code)
    ensures r.Ok? ==> "(function (" + Join(args + ["$$_callback"], ", ") + ") {\n" + "  \"use strict\";\n"
                      + "  if (arguments.length !== " + IntToString(|args| + 1) + ") {\n" <= r.value
  {
    args, vars, defers, code := [], [], [], [];
    var lexed := Classifier.Parse(v, Tea, source);
    if lexed.LexFailure? {
      LexerFacts.TokenizeErrorPlaced(Tea, source);
      return Err(SyntaxError(lexed.error, lexed.line, lexed.column)), args, vars, defers, code;
    }
    var globalArgs := new ParseContext.Names([]);
    var globalVars := new ParseContext.Names([]);
    var ctx := new ParseContext.Context(globalArgs, globalVars, TeaAddReturn(lexed.list, false), 2);
    var outcome, lines, states := TeaParser.Parse(ctx);
    if outcome.Fail? {
      return Err(Reported(outcome.failure)), args, vars, defers, code;
    }
    args, vars, defers, code := ctx.args.items, ctx.vars.items, ctx.defers, ctx.code;
    TeaWrapArity(args, vars, defers, code);
    r := Ok(TeaWrap(ctx.args.items, ctx.vars.items, ctx.defers, ctx.code));
  }
}
