/** Tokens: their types, and the keywords among them. */
module Tokens {

  datatype TokenType =
    | EOF | ERR | EOL | STRING | NUMBER | LPAR | RPAR | INT | EQ | COMMA | DOT
    | AS | AND | TO | SOURCE | VAR | SINK | ASYNC | IDENTIFIER | MERGE | DUPE
    | APPEND | CUT | SET | WITH | FANOUT | TAG | JOIN

  datatype Token = Token(typ: TokenType, text: string, line: nat)

  /** What a token is, wherever it stands. */
  datatype Shape = Shape(typ: TokenType, text: string)

  function ShapeOf(t: Token): Shape { Shape(t.typ, t.text) }

  function Shapes(ts: seq<Token>): (r: seq<Shape>)
    ensures |r| == |ts|
    ensures forall k :: 0 <= k < |ts| ==> r[k] == ShapeOf(ts[k])
  {
    if ts == [] then [] else [ShapeOf(ts[0])] + Shapes(ts[1..])
  }

  /** The types of the tokens that are words. */
  predicate IsWord(typ: TokenType) {
    && !typ.EOF? && !typ.ERR? && !typ.EOL? && !typ.STRING? && !typ.NUMBER? && !typ.INT?
    && !typ.LPAR? && !typ.RPAR? && !typ.EQ? && !typ.COMMA? && !typ.DOT?
  }

  /** The token type of a chunk that spells a keyword; IDENTIFIER for any other chunk. */
  function KeywordType(s: string): (r: TokenType)
    ensures IsWord(r)
  {
    match s
    case "as" => AS
    case "and" => AND
    case "to" => TO
    case "source" => SOURCE
    case "var" => VAR
    case "sink" => SINK
    case "async" => ASYNC
    case "merge" => MERGE
    case "dupe" => DUPE
    case "append" => APPEND
    case "cut" => CUT
    case "set" => SET
    case "with" => WITH
    case "fanout" => FANOUT
    case "tag" => TAG
    case "join" => JOIN
    case _ => IDENTIFIER
  }
}
