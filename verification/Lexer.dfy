/** The lexer: an imperative scanner over the ring buffer that posts one token at a time. */
module Lexer {
  import opened Runes
  import opened Tokens
  import opened RuneBuffer
  import opened LexSpec

  /** The error that a scanning method hands to HandleLexErr. */
  datatype LexErr = NoErr | AtEOF | Failure(fault: Fault)

  class Lexer {
    const b: LexBuf
    var line: nat
    var tokens: seq<Token> // posted so far
    var closed: bool       // no more tokens will be posted

    ghost predicate Valid()
      reads this, b, b.buf
    {
      b.Valid()
    }

    /** The tokens that the rest of the text will give, read from a fresh start at p. */
    ghost function Pending(p: nat): seq<Token>
      requires Valid() && p <= |b.text|
      reads this, b, b.buf
    {
      LexFrom(b.text[p..], line, b.Cap())
    }

    constructor (text: string, size: nat)
      requires 2 <= size
      ensures Valid() && fresh(b) && fresh(b.buf) && b.buf.Length == size
      ensures b.text == text && b.s == b.p == 0
      ensures line == 1 && tokens == [] && !closed
    {
      b := new LexBuf(text, size);
      line := 1;
      tokens := [];
      closed := false;
    }

    method PostToken(typ: TokenType)
      requires Valid()
      modifies `tokens, b`startPtr, b`s
      ensures Valid() && b.s == b.p
      ensures tokens == old(tokens) + [Token(typ, b.text[old(b.s)..b.p], line)]
    {
      var text := b.Consume();
      tokens := tokens + [Token(typ, text, line)];
    }

    method HandleLexErr(err: LexErr)
      requires Valid() && err != NoErr
      modifies `tokens, b`startPtr, b`s
      ensures Valid()
      ensures tokens == old(tokens) + [
        if err == AtEOF then Token(EOF, "", line)
        else Token(ERR, ErrorText(err.fault, b.text[old(b.s)..b.p]), line)]
    {
      if err == AtEOF {
        tokens := tokens + [Token(EOF, "", line)];
        return;
      }
      var text := b.Consume();
      tokens := tokens + [Token(ERR, ErrorText(err.fault, text), line)];
    }

    /** A scanning method that began at position q did what the step r says. */
    twostate predicate Scanned(q: nat, r: Scan, err: LexErr)
      requires q < |b.text| && (r.Tok? ==> r.from <= r.to <= |b.text| - q)
      reads this, b, b.buf
    {
      && b.Valid() && line == old(line) && closed == old(closed)
      && b.s <= b.p
      && match r
         case Tok(typ, from, to) =>
           && err == NoErr && b.s == b.p == q + to
           && tokens == old(tokens) + [Token(typ, b.text[q..][from..to], line)]
         case Bad(text) =>
           && tokens == old(tokens)
           && err.Failure? && ErrorText(err.fault, b.text[b.s..b.p]) == text
         case Stop =>
           && tokens == old(tokens) && err == AtEOF
    }

    /** Reads up to and including the closing quote of the string that began at q. */
    method ReadToQuote(ghost q: nat) returns (err: LexErr)
      requires Valid() && b.s == q && b.p == q + 1 <= |b.text|
      modifies b, b.buf
      ensures Valid() && b.s == Max(q, b.p - b.Cap())
      ensures
        match CloseOf(b.text[q + 1..])
        case Closed(n) => err == NoErr && b.p == q + 1 + n
        case Unterminated => err == Failure(UnterminatedString) && b.p == |b.text|
        case Dangling => err == AtEOF
    {
      hide LexBuf.Valid, CloseOf, Later;
      ghost var t := b.text;
      LaterIs(0, CloseOf(t[b.p..]));
      while true
        invariant b.Valid()
        invariant q < b.p <= |t|
        invariant b.s == Max(q, b.p - b.Cap())
        invariant CloseOf(t[q + 1..]) == Later(b.p - (q + 1), CloseOf(t[b.p..]))
        decreases |t| - b.p
      {
        CloseStep(b.p - (q + 1), t, b.p);
        var c, eof := b.Read();
        if eof {
          return Failure(UnterminatedString);
        }
        if c == '\\' {
          c, eof := b.Read();
          if eof {
            return AtEOF;
          }
        } else if c == '"' {
          return NoErr;
        }
      }
    }

    /** Reads the rest of a string whose opening quote has been read. */
    method ReadString(ghost q: nat) returns (err: LexErr)
      requires Valid() && b.s == q && b.p == q + 1 <= |b.text|
      modifies `tokens, b, b.buf
      ensures Scanned(q, ScanString(b.text[q..], b.Cap()), err)
    {
      hide LexBuf.Valid, ErrorText, CloseOf, Span, IsDigit;
      ghost var t := b.text;
      assert t[q..][1..] == t[q + 1..];
      err := ReadToQuote(q);
      Slice(t, q, b.s, b.p);
      assert b.p == |t| ==> t[q..][b.s - q..] == t[b.s..b.p];
      if err == NoErr {
        PostToken(STRING);
      }
    }

    method ReadNumber(ghost q: nat) returns (err: LexErr)
      requires Valid() && b.s == b.p == q < |b.text|
      modifies `tokens, b, b.buf
      ensures Scanned(q, ScanNumber(b.text[q..], b.Cap()), err)
    {
      hide LexBuf.Valid, ErrorText, Span, ScanNumber, ScanFraction, Clip, Ahead, LexBuf.Reach;
      ghost var t := b.text[q..];
      ghost var (sign, whole) := WholePart(t);
      NumberIs(t, b.Cap());
      var found := ReadWhole(q, sign);
      Slice(b.text, q, b.s, b.p);
      if !found {
        return Failure(InvalidNumber);
      }
      found := b.AcceptOne(IsPoint);
      if !found {
        PostToken(INT);
        return NoErr;
      }
      hide WholePart, IsPoint;
      err := ReadFraction(q, whole);
    }

    /** Reads the sign and the digits before a decimal point. */
    method ReadWhole(ghost q: nat, ghost sign: nat) returns (found: bool)
      requires Valid() && b.s == b.p == q < |b.text|
      requires sign == if b.text[q] == '-' then 1 else 0
      modifies b, b.buf
      ensures Valid()
      ensures
        var t := b.text[q..];
        var whole := sign + Span(t[sign..], IsDigit);
        && b.p == q + whole && b.s == q + Clip(Ahead(t, whole), b.Cap())
        && found == (sign < whole) && b.Reach() - b.Cap() <= b.s
    {
      hide LexBuf.Valid, Span, IsDigit;
      ghost var t := b.text;
      var _ := b.AcceptOne(IsMinus);
      assert b.s == q && b.p == q + sign;
      assert t[q..][sign..] == t[q + sign..];
      found := b.Accept(IsDigit);
      assert b.p == q + sign + Span(t[q..][sign..], IsDigit);
      assert b.Reach() == q + Ahead(t[q..], b.p - q);
    }

    /** Reads the digits behind the decimal point. */
    method ReadFraction(ghost q: nat, ghost whole: nat) returns (err: LexErr)
      requires Valid() && q + whole < b.p == q + whole + 1 <= |b.text|
      requires b.s == q + Clip(Ahead(b.text[q..], whole), b.Cap())
      modifies `tokens, b, b.buf
      ensures Scanned(q, ScanFraction(b.text[q..], whole, b.Cap()), err)
    {
      hide LexBuf.Valid, ErrorText, CloseOf, Span, IsDigit;
      ghost var t, cap := b.text, b.Cap();
      assert t[q..][whole + 1..] == t[q + whole + 1..];
      var found := b.Accept(IsDigit);
      ghost var end := b.p - q;
      assert b.s == q + Clip(Ahead(t[q..], end), cap);
      Slice(t, q, b.s, b.p);
      if !found {
        return Failure(NoDigitAfterDecimal);
      }
      PostToken(NUMBER);
      return NoErr;
    }

    method ReadKeywords(ghost q: nat) returns (err: LexErr)
      requires Valid() && b.s == q && b.p == q + 1 <= |b.text|
      requires IsWordRune(b.text[q])
      modifies `tokens, b, b.buf
      ensures Scanned(q, ScanWord(b.text[q..], b.Cap()), err)
    {
      hide LexBuf.Valid, ErrorText, KeywordType, Span, IsWordRune, IsIdStart;
      ghost var t := b.text[q..];
      var s := ReadChunk(q);
      ghost var from := b.s - q;
      if KeywordType(s) != IDENTIFIER {
        PostToken(KeywordType(s));
        return NoErr;
      }
      b.Reset();
      var found := ReadIdentifier(q, from);
      if !found {
        return Failure(UnknownToken(s));
      }
      return NoErr;
    }

    /** Reads the chunk that began at q, as far as the window keeps it. */
    method ReadChunk(ghost q: nat) returns (s: string)
      requires Valid() && b.s == q && b.p == q + 1 <= |b.text|
      requires IsWordRune(b.text[q])
      modifies b, b.buf
      ensures Valid()
      ensures
        var t := b.text[q..];
        var chunk := Span(t, IsWordRune);
        var from := Clip(Ahead(t, chunk), b.Cap());
        && b.s == q + from && b.p == q + chunk
        && s == t[from..chunk] == b.text[b.s..b.p]
    {
      hide LexBuf.Valid, Span, IsWordRune;
      SpanStep(b.text, q, IsWordRune);
      b.ReadUntilWhitespaceOrBreak();
      s := b.Preview();
      Slice(b.text, q, b.s, b.p);
    }

    /** Reads an identifier at the start of the window on the chunk that begins at q. */
    method ReadIdentifier(ghost q: nat, ghost from: nat) returns (found: bool)
      requires Valid() && b.s == b.p == q + from < |b.text|
      requires from == Clip(Ahead(b.text[q..], Span(b.text[q..], IsWordRune)), b.Cap())
      modifies `tokens, b, b.buf
      ensures Valid() && b.s == b.p && b.text[b.s..b.p] == ""
      ensures
        var t := b.text[q..];
        var to := from + 1 + Span(t[from + 1..], IsIdRest);
        && found == IsIdStart(t[from])
        && (!found ==> tokens == old(tokens))
        && (found ==> b.p == q + to && tokens == old(tokens) + [Token(IDENTIFIER, t[from..to], line)])
    {
      hide LexBuf.Valid, Span, IsWordRune, IsIdStart, IsIdRest;
      found := b.AcceptOne(IsIdStart);
      if !found {
        return;
      }
      ghost var t := b.text;
      assert t[q..][from + 1..] == t[q + from + 1..];
      IdentifierInChunk(t[q..], from);
      var _ := b.Accept(IsIdRest);
      Slice(t, q, b.s, b.p);
      PostToken(IDENTIFIER);
    }

    /** Reads a number from its first rune on. */
    method UnreadNumber(ghost q: nat) returns (err: LexErr)
      requires Valid() && b.s == q && b.p == q + 1 <= |b.text|
      modifies `tokens, b, b.buf
      ensures Scanned(q, ScanNumber(b.text[q..], b.Cap()), err)
    {
      hide LexBuf.Valid, ScanNumber;
      b.Unread();
      err := ReadNumber(q);
    }

    method PostPunctuation(ghost q: nat, typ: TokenType) returns (err: LexErr)
      requires Valid() && b.s == q && b.p == q + 1 <= |b.text|
      modifies `tokens, b`startPtr, b`s
      ensures Scanned(q, Tok(typ, 0, 1), err)
    {
      hide LexBuf.Valid;
      Slice(b.text, q, q, q + 1);
      PostToken(typ);
      err := NoErr;
    }

    /** Scans one token whose first rune c has been read; line ends are left to Lex. */
    method LexToken(ghost q: nat, c: char) returns (err: LexErr)
      requires Valid() && b.s == q && b.p == q + 1 <= |b.text|
      requires c == b.text[q] && !IsBlank(c) && c != '\n'
      modifies `tokens, b, b.buf
      ensures Scanned(q, ScanAt(b.text[q..], b.Cap()), err)
    {
      hide LexBuf.Valid, Scanned, ScanString, ScanNumber, ScanWord;
      if c == '"' {
        err := ReadString(q);
      } else if c == '-' || IsDigit(c) {
        err := UnreadNumber(q);
      } else if PunctuationType(c) != ERR {
        err := PostPunctuation(q, PunctuationType(c));
      } else {
        err := ReadKeywords(q);
      }
    }

    /** One round of the lexer's loop: skips blanks and posts one token. */
    method LexRound() returns (more: bool)
      requires Valid() && b.s == b.p
      modifies this, b, b.buf
      ensures Valid()
      ensures more ==> b.s == b.p && old(b.p) < b.p && tokens + Pending(b.p) == old(tokens + Pending(b.p))
      ensures !more ==> tokens == old(tokens + Pending(b.p))
    {
      hide LexBuf.Valid, ScanAt, LexFrom, LexAt, Span, ErrorText;
      ghost var t, p := b.text, b.p;
      var eof := b.SkipWhitespace();
      ghost var q := b.p;
      LexSkip(t, p, line, b.Cap());
      LexStep(t, q, line, b.Cap());
      if eof {
        HandleLexErr(AtEOF);
        return false;
      }
      var c;
      c, eof := b.Read();
      if c == '\n' {
        Slice(b.text, q, q, q + 1);
        PostToken(EOL);
        line := line + 1;
        return true;
      }
      var err := LexToken(q, c);
      if err != NoErr {
        HandleLexErr(err);
        return false;
      }
      return true;
    }

    /** Lexes the whole text and closes the channel. */
    method Lex()
      requires Valid() && b.s == b.p
      modifies this, b, b.buf
      ensures Valid() && closed
      ensures tokens == old(tokens + Pending(b.p))
    {
      hide LexBuf.Valid, LexFrom;
      var more := true;
      while more
        invariant Valid()
        invariant more ==> b.s == b.p
        invariant tokens + (if more then Pending(b.p) else []) == old(tokens + Pending(b.p))
        decreases more, |b.text| - b.p
      {
        more := LexRound();
      }
      closed := true;
    }
  }

  /** Lexing a text through a buffer of the given size posts exactly the tokens of Lex. */
  method LexString(text: string, size: nat) returns (tokens: seq<Token>)
    requires 2 <= size
    ensures tokens == Lex(text, size - 1)
  {
    hide LexBuf.Valid, LexFrom;
    var l := new Lexer(text, size);
    assert text[0..] == text;
    l.Lex();
    tokens := l.tokens;
  }

  lemma {:induction false} LexSkip(t: string, p: nat, line: nat, cap: nat)
    requires p <= |t| && 1 <= cap
    ensures
      var q := p + Span(t[p..], IsBlank);
      && LexFrom(t[p..], line, cap) == LexAt(t[q..], line, cap)
      && (q < |t| ==> !IsBlank(t[q]))
  {
    hide Span, LexAt;
    var n := Span(t[p..], IsBlank);
    SpanIsLongest(t[p..], IsBlank, n);
    assert t[p..][n..] == t[p + n..];
  }

  lemma {:induction false} LexStep(t: string, q: nat, line: nat, cap: nat)
    requires q <= |t| && 1 <= cap
    ensures q == |t| ==> LexAt(t[q..], line, cap) == [Token(EOF, "", line)]
    ensures q < |t| ==>
      var r := ScanAt(t[q..], cap);
      LexAt(t[q..], line, cap) ==
      if r.Tok? then
        [Token(r.typ, t[q..][r.from..r.to], line)] + LexFrom(t[q + r.to..], NextLine(line, r.typ), cap)
      else
        [if r.Bad? then Token(ERR, r.text, line) else Token(EOF, "", line)]
  {
  }

  lemma {:induction false} Slice(t: string, q: nat, from: nat, to: nat)
    requires q <= from <= to <= |t|
    ensures t[q..][from - q..to - q] == t[from..to]
  {
  }

  lemma {:induction false} NumberIs(t: string, cap: nat)
    requires t != "" && 1 <= cap
    ensures
      var (sign, whole) := WholePart(t);
      ScanNumber(t, cap) ==
        if whole == sign then Bad(ErrorText(InvalidNumber, t[Clip(Ahead(t, whole), cap)..whole]))
        else if whole == |t| || t[whole] != '.' then Tok(INT, Clip(Ahead(t, whole), cap), whole)
        else ScanFraction(t, whole, cap)
  {
  }

  lemma {:induction false} LaterIs(k: nat, c: Close)
    ensures Later(k, c) == if c.Closed? then Closed(k + c.n) else c
  {
  }

  /** Where the string closes, seen from k runes before p, once the next rune or two are known. */
  lemma {:induction false} CloseStep(k: nat, t: string, p: nat)
    requires p <= |t|
    ensures p == |t| ==> Later(k, CloseOf(t[p..])) == Unterminated
    ensures p < |t| && t[p] == '"' ==> Later(k, CloseOf(t[p..])) == Closed(k + 1)
    ensures p < |t| && t[p] != '"' && t[p] != '\\' ==> Later(k, CloseOf(t[p..])) == Later(k + 1, CloseOf(t[p + 1..]))
    ensures p + 1 == |t| && t[p] == '\\' ==> Later(k, CloseOf(t[p..])) == Dangling
    ensures p + 1 < |t| && t[p] == '\\' ==> Later(k, CloseOf(t[p..])) == Later(k + 2, CloseOf(t[p + 2..]))
  {
  }
}
