/** exports.parse of build/bright.js: the source is scanned and classified, the
    tokens (with a closing `return`) are compiled from depth 2 into one context, and
    the context is wrapped into the compiled function. */
module BrightCompiler {
  import opened Tokens
  import opened Lexer
  import LexerFacts
  import Classifier
  import opened BrightRules
  import BrightParser
  import ParseContext

  /** The compiled program, or the error the compiler throws. A scanning error is
      reported with its own message and position; a statement's error with the
      prefix and the position of its token; every syntax error it reports names
      itself as one.  `AsWritten` classifies the tokens as the bundle does;
      `Intended` with the classifier's slips corrected. */
  method Compile(v: Version, source: string)
      returns (r: Result<string>, ghost args: seq<string>, ghost vars: seq<string>, ghost defers: seq<string>, ghost code: seq<string>)
    ensures Classifier.Parse(v, Bright, source).LexFailure? ==> (
      var e := Classifier.Parse(v, Bright, source);
      r == Err(SyntaxError(e.error, e.line, e.column)))
    ensures r.Err? && r.failure.SyntaxError? ==> "SyntaxError: " <= r.failure.message
    ensures r.Ok? ==> Classifier.Parse(v, Bright, source).Tokens? && r.value == Wrap(args, vars, defers, code, 2)
  {
    args, vars, defers, code := [], [], [], [];
    var lexed := Classifier.Parse(v, Bright, source);
    if lexed.LexFailure? {
      LexerFacts.TokenizeErrorPlaced(Bright, source);
      return Err(SyntaxError(lexed.error, lexed.line, lexed.column)), args, vars, defers, code;
    }
    var globalArgs := new ParseContext.Names([]);
    var globalVars := new ParseContext.Names([]);
    var ctx := new ParseContext.Context(globalArgs, globalVars, AddReturn(lexed.list, false), 2);
    var outcome, lines, states := BrightParser.Parse(ctx);
    if outcome.Fail? {
      return Err(Reported(outcome.failure)), args, vars, defers, code;
    }
    args, vars, defers, code := ctx.args.items, ctx.vars.items, ctx.defers, ctx.code;
    r := Ok(Wrap(ctx.args.items, ctx.vars.items, ctx.defers, ctx.code, ctx.indent));
  }
}
