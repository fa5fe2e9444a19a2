/**
 * The part of Go's syntax tree (package go/ast) that the configuration-key
 * rule looks at. Every expression kind the rule does not distinguish
 * (parenthesised expressions, binary expressions, index expressions, ...)
 * is folded into `Other`, which keeps only its source span.
 */
module GoAst {

  /** A token.Pos: an offset into the file set. */
  type TokenPos = int

  /** The token kinds a go/ast BasicLit can carry. */
  datatype Token = INT | FLOAT | IMAG | CHAR | STRING

  /**
   * An *ast.Ident. `nameEnd` is the offset just past the name, as the
   * parser records it (Go derives it from the start and the byte length).
   */
  datatype Ident = Ident(namePos: TokenPos, name: string, nameEnd: TokenPos)

  /**
   * An *ast.BasicLit. `value` is the literal's source text, quotes and
   * escapes included; `valueEnd` is the offset just past it.
   */
  datatype BasicLit = BasicLit(valuePos: TokenPos, kind: Token, value: string, valueEnd: TokenPos)

  datatype Expr =
    | Name(id: Ident)                    // *ast.Ident
    | Selector(x: Expr, sel: Ident)      // *ast.SelectorExpr: x.sel
    | Lit(lit: BasicLit)                 // *ast.BasicLit
    | Call(call: CallExpr)               // *ast.CallExpr used as an expression
    | Other(pos: TokenPos, end: TokenPos) // any other expression node
  {
    /** ast.Node.Pos(): the offset of the node's first character. */
    function Pos(): TokenPos
    {
      match this
      case Name(id) => id.namePos
      case Selector(x, _) => x.Pos()
      case Lit(lit) => lit.valuePos
      case Call(call) => call.fun.Pos()
      case Other(pos, _) => pos
    }

    /** ast.Node.End(): the offset just past the node's last character. */
    function End(): TokenPos
    {
      match this
      case Name(id) => id.nameEnd
      case Selector(_, sel) => sel.nameEnd
      case Lit(lit) => lit.valueEnd
      case Call(call) => call.rparen + 1
      case Other(_, end) => end
    }
  }

  /** An *ast.CallExpr: fun(args...). */
  datatype CallExpr = CallExpr(fun: Expr, lparen: TokenPos, args: seq<Expr>, rparen: TokenPos)
}
