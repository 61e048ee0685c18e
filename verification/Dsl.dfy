/** The front end as a whole: from the text of a script to its nodes. */
module Dsl {
  import opened Options
  import opened Tokens
  import opened LexSpec
  import opened LexTheorems
  import opened Lexer
  import opened Syntax
  import opened ParseSpec
  import opened Grammar
  import opened RoundTrip
  import opened Streams
  import opened Parser

  const LEX_BUF_SIZE := 256

  function TokensOf(text: string): seq<Shape> {
    Shapes(Lex(text, LEX_BUF_SIZE - 1))
  }

  /** The lines derive the text within the rules of scope. */
  ghost predicate Derives(lines: seq<Line>, text: string, eng: Engine) {
    LinesOk(lines) && ScriptShapes(lines) == TokensOf(text) && ScriptInScope(Stmts(lines), NO_SCOPE, eng)
  }

  /** Lexes and parses a text. It succeeds exactly if the grammar derives the text, and then gives the
      nodes of the derived statements. At most three tokens are ever pushed back at a time. */
  method ParseString(text: string, eng: Engine) returns (nodes: seq<Node>, err: Option<ParseErr>)
    ensures err.None? <==> exists lines :: Derives(lines, text, eng)
    ensures forall lines :: Derives(lines, text, eng) ==> nodes == Nodes(Stmts(lines))
    ensures
      var r := ReadScript(TokensOf(text), NO_SCOPE, eng);
      if r.Done? then err == None && nodes == Nodes(r.stmts) else err == Some(r.err)
  {
    var tokens := LexString(text, LEX_BUF_SIZE);
    hide *;
    var str := new TokenStream(tokens);
    var p := new Parser();
    Begin(text, str, p);
    nodes, err := p.Parse(str, eng);
    DerivesIff(text, eng);
  }

  /** The stream of a text is ready to be parsed. */
  lemma {:induction false} Begin(text: string, str: TokenStream, p: Parser)
    requires str.Valid() && str.idx == 0 && str.most == 0
    requires str.Content() == Lex(text, LEX_BUF_SIZE - 1)
    ensures p.AtLineEnd(str) && str.Ahead() == TokensOf(text)
  {
    hide Ready, LexFrom;
    LexIsReady(text, 1, LEX_BUF_SIZE - 1);
  }

  lemma {:induction false} DerivesIff(text: string, eng: Engine)
    ensures
      var r := ReadScript(TokensOf(text), NO_SCOPE, eng);
      && (r.Done? <==> exists lines :: Derives(lines, text, eng))
      && (forall lines :: Derives(lines, text, eng) ==> r == Done(Stmts(lines), AfterAll(Stmts(lines), NO_SCOPE)))
  {
    hide Ready, LexFrom, ReadScript, LinesOk, ScriptShapes, ScriptInScope, AfterAll;
    LexIsReady(text, 1, LEX_BUF_SIZE - 1);
    var xs := TokensOf(text);
    ParserIsGrammar(xs, NO_SCOPE, eng);
    if ReadScript(xs, NO_SCOPE, eng).Done? {
      var lines :| LinesOk(lines) && ScriptShapes(lines) == xs && ScriptInScope(Stmts(lines), NO_SCOPE, eng);
      assert Derives(lines, text, eng);
    }
  }
}
