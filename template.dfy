/** The compiled-function templates of both compilers (bright's syntax.wrap and the
    non-nested end of tea's syntax.parse) as a list of pieces: fixed text, or a part
    that depends on the compiled context. */
module Template {
  import opened Tokens

  datatype Piece =
    | Text(text: string)
    | Indent                 // the template's indentation
    | Params                 // the parameter names, comma separated
    | Arity                  // the number of parameters, in decimal
    | Declarations           // the variable declaration block
    | Deferred               // the deferred-action block
    | Body                   // the generated lines, one per line

  /** What a template is filled with. */
  datatype Unit = Unit(params: seq<string>, declarations: string, deferred: string, code: seq<string>, ind: string)

  function PieceText(p: Piece, u: Unit): string {
    match p
    case Text(t) => t
    case Indent => u.ind
    case Params => Join(u.params, ", ")
    case Arity => IntToString(|u.params|)
    case Declarations => u.declarations
    case Deferred => u.deferred
    case Body => Join(u.code, "\n")
  }

  /** A template: pieces in order. */
  datatype Pieces = End | Then(head: Piece, tail: Pieces)

  /** The texts of the pieces, in order.  (The unit is part of the termination
      measure so that a template written out as a literal is not unfolded piece by
      piece wherever it is mentioned.) */
  function Fill(ps: Pieces, u: Unit): string
    decreases ps, u
  {
    match ps
    case End => ""
    case Then(p, rest) => PieceText(p, u) + Fill(rest, u)
  }
}
