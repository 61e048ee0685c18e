/** What the lexer computes, as a function of the text still to be read.
    cap is the number of runes that the ring buffer keeps, one less than its size. */
module LexSpec {
  import opened Runes
  import opened Tokens

  /** One step of the lexer at a text that starts with a rune other than a blank. */
  datatype Scan =
    | Tok(typ: TokenType, from: nat, to: nat) // posts text[from..to] and goes on at to
    | Bad(text: string)                       // posts an error token and stops
    | Stop                                    // the text ends inside an escape: a plain EOF

  /** Where the token's text starts once reach runes have been read: the window drops the oldest. */
  function Clip(reach: nat, cap: nat): (n: nat)
    ensures n == 0 <==> reach <= cap
    ensures n <= reach
  {
    if cap < reach then reach - cap else 0
  }

  datatype Close = Closed(n: nat) | Unterminated | Dangling

  /** Where a string closes, counted from behind its opening quote. */
  function CloseOf(t: string): (r: Close)
    ensures r.Closed? ==> 1 <= r.n <= |t| && t[r.n - 1] == '"'
  {
    if t == "" then Unterminated
    else if t[0] == '"' then Closed(1)
    else if t[0] != '\\' then Later(1, CloseOf(t[1..]))
    else if |t| == 1 then Dangling
    else Later(2, CloseOf(t[2..]))
  }

  function Later(k: nat, c: Close): Close {
    if c.Closed? then Closed(k + c.n) else c
  }

  datatype Fault = UnterminatedString | InvalidNumber | NoDigitAfterDecimal | UnknownToken(word: string)

  /** The text of an error token. */
  function ErrorText(fault: Fault, consumed: string): string {
    var message :=
      match fault
      case UnterminatedString => "EOF: unterminated string"
      case InvalidNumber => "invalid number: no digit found"
      case NoDigitAfterDecimal => "missing digit(s) after decimal"
      case UnknownToken(word) => "unknown token: " + word;
    message + ": '" + consumed + "'"
  }

  /** How many runes after the first n are looked at: one, or none at the end of the text. */
  function Ahead(t: string, n: nat): int {
    Min(n + 1, |t|)
  }

  function ScanString(t: string, cap: nat): (r: Scan)
    requires t != "" && 1 <= cap
    ensures r.Tok? ==> r.from <= r.to <= |t| && 0 < r.to
  {
    match CloseOf(t[1..])
    case Closed(n) => Tok(STRING, Clip(n + 1, cap), n + 1)
    case Unterminated => Bad(ErrorText(UnterminatedString, t[Clip(|t|, cap)..]))
    case Dangling => Stop
  }

  /** Lengths of the optional sign and of the digits after it. */
  function WholePart(t: string): (int, int)
    requires t != ""
  {
    var sign := if t[0] == '-' then 1 else 0;
    (sign, sign + Span(t[sign..], IsDigit))
  }

  function ScanNumber(t: string, cap: nat): (r: Scan)
    requires t != "" && 1 <= cap
    ensures r.Tok? ==> r.from <= r.to <= |t| && 0 < r.to
  {
    var (sign, whole) := WholePart(t);
    if whole == sign then
      Bad(ErrorText(InvalidNumber, t[Clip(Ahead(t, whole), cap)..whole]))
    else if whole == |t| || t[whole] != '.' then
      Tok(INT, Clip(Ahead(t, whole), cap), whole)
    else ScanFraction(t, whole, cap)
  }

  /** The digits behind the point at index whole. */
  function ScanFraction(t: string, whole: nat, cap: nat): (r: Scan)
    requires whole < |t| && 1 <= cap
    ensures r.Tok? ==> r.from <= r.to <= |t| && 0 < r.to
  {
    var end := whole + 1 + Span(t[whole + 1..], IsDigit);
    if end == whole + 1 then
      Bad(ErrorText(NoDigitAfterDecimal, t[Clip(Ahead(t, end), cap)..end]))
    else
      Tok(NUMBER, Clip(Ahead(t, end), cap), end)
  }

  /** A keyword is a whole chunk; an identifier is the longest one at the head of the chunk. */
  function ScanWord(t: string, cap: nat): (r: Scan)
    requires t != "" && 1 <= cap
    ensures r.Tok? ==> r.from <= r.to <= |t| && 0 < r.to
  {
    var chunk := Span(t, IsWordRune);
    var from := Clip(Ahead(t, chunk), cap);
    var word := t[from..chunk];
    if KeywordType(word) != IDENTIFIER then Tok(KeywordType(word), from, chunk)
    else if IsIdStart(t[from]) then Tok(IDENTIFIER, from, from + 1 + Span(t[from + 1..], IsIdRest))
    else Bad(ErrorText(UnknownToken(word), ""))
  }

  function PunctuationType(c: char): TokenType {
    match c
    case '\n' => EOL
    case '(' => LPAR
    case ')' => RPAR
    case '=' => EQ
    case ',' => COMMA
    case '.' => DOT
    case _ => ERR
  }

  function ScanAt(t: string, cap: nat): (r: Scan)
    requires t != "" && 1 <= cap
    ensures r.Tok? ==> r.from <= r.to <= |t| && 0 < r.to
    ensures r.Tok? ==> !r.typ.EOF? && !r.typ.ERR?
    ensures r.Tok? && r.typ == EOL <==> t[0] == '\n'
    ensures t[0] == '\n' ==> r == Tok(EOL, 0, 1)
  {
    if PunctuationType(t[0]) != ERR then Tok(PunctuationType(t[0]), 0, 1)
    else if t[0] == '"' then ScanString(t, cap)
    else if t[0] == '-' || IsDigit(t[0]) then ScanNumber(t, cap)
    else ScanWord(t, cap)
  }

  function NextLine(line: nat, typ: TokenType): nat {
    if typ == EOL then line + 1 else line
  }

  /** The tokens posted from the start of t on. */
  function LexFrom(t: string, line: nat, cap: nat): (ts: seq<Token>)
    requires 1 <= cap
    ensures 0 < |ts|
    decreases |t|, 1
  {
    LexAt(t[Span(t, IsBlank)..], line, cap)
  }

  /** The same for a text whose leading blanks have been skipped. */
  function LexAt(t: string, line: nat, cap: nat): (ts: seq<Token>)
    requires 1 <= cap
    ensures 0 < |ts|
    decreases |t|, 0
  {
    if t == "" then [Token(EOF, "", line)]
    else
      match ScanAt(t, cap)
      case Tok(typ, from, to) =>
        [Token(typ, t[from..to], line)] + LexFrom(t[to..], NextLine(line, typ), cap)
      case Bad(text) => [Token(ERR, text, line)]
      case Stop => [Token(EOF, "", line)]
  }

  /** All tokens of a text, read through a window of cap runes. */
  function Lex(text: string, cap: nat): seq<Token>
    requires 1 <= cap
  {
    LexFrom(text, 1, cap)
  }
}
