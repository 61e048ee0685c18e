/** What the lexer guarantees about a whole text: which texts the window can hold, and what is lost. */
module LexTheorems {
  import opened Runes
  import opened Tokens
  import opened LexSpec

  // ----- When the window is wide enough ------------------------------------------------------

  /** How many runes the step at t looks at before it cuts out a text; 0 if it cuts out none. */
  function ReachAt(t: string): (n: nat)
    requires t != ""
    ensures n <= |t|
  {
    if PunctuationType(t[0]) != ERR then 1
    else if t[0] == '"' then
      match CloseOf(t[1..])
      case Closed(n) => n + 1
      case Unterminated => |t|
      case Dangling => 0
    else if t[0] == '-' || IsDigit(t[0]) then
      var (sign, whole) := WholePart(t);
      if whole == sign || whole == |t| || t[whole] != '.' then Ahead(t, whole)
      else Ahead(t, whole + 1 + Span(t[whole + 1..], IsDigit))
    else Ahead(t, Span(t, IsWordRune))
  }

  function Skip(t: string): (r: string)
    ensures |r| <= |t|
    ensures r != "" ==> !IsBlank(r[0])
  {
    SpanIsLongest(t, IsBlank, Span(t, IsBlank));
    t[Span(t, IsBlank)..]
  }

  /** Every step of the run over t stays within a window of cap runes. */
  predicate Fits(t: string, cap: nat)
    requires 1 <= cap
    decreases |t|
  {
    var rest := Skip(t);
    rest != "" ==>
      && ReachAt(rest) <= cap
      && (ScanAt(rest, cap).Tok? ==> Fits(rest[ScanAt(rest, cap).to..], cap))
  }

  /** Error texts about the same fault tell how many runes they quote. */
  lemma {:induction false} ErrorTextLength(f: Fault, a: string, b: string)
    requires |a| != |b|
    ensures ErrorText(f, a) != ErrorText(f, b)
    ensures ErrorText(UnknownToken(a), "") != ErrorText(UnknownToken(b), "")
  {
  }

  /** A step through the window does what it does on the unbounded text
      exactly if everything it looks at fits into the window. */
  lemma {:induction false} StepIsIdealIffFits(t: string, cap: nat, wide: nat)
    requires t != "" && 1 <= cap && 1 <= wide && |t| <= wide
    ensures ScanAt(t, cap) == ScanAt(t, wide) <==> ReachAt(t) <= cap
  {
    hide Span, CloseOf, KeywordType, ErrorText;
    if PunctuationType(t[0]) != ERR {
    } else if t[0] == '"' {
      if cap < |t| {
        ErrorTextLength(UnterminatedString, t[Clip(|t|, cap)..], t);
      }
      assert t[0..] == t;
    } else if t[0] == '-' || IsDigit(t[0]) {
      NumberIsIdealIffFits(t, cap, wide);
    } else {
      WordIsIdealIffFits(t, cap, wide);
    }
  }

  lemma {:induction false} NumberIsIdealIffFits(t: string, cap: nat, wide: nat)
    requires t != "" && 1 <= cap && 1 <= wide && |t| <= wide
    ensures
      var (sign, whole) := WholePart(t);
      var reach :=
        if whole == sign || whole == |t| || t[whole] != '.' then Ahead(t, whole)
        else Ahead(t, whole + 1 + Span(t[whole + 1..], IsDigit));
      ScanNumber(t, cap) == ScanNumber(t, wide) <==> reach <= cap
  {
    hide Span, ErrorText;
    var (sign, whole) := WholePart(t);
    if whole == sign {
      var reach := Ahead(t, whole);
      if cap < reach {
        ErrorTextLength(InvalidNumber, t[Clip(reach, cap)..whole], t[Clip(reach, wide)..whole]);
      }
    } else if whole < |t| && t[whole] == '.' {
      var end := whole + 1 + Span(t[whole + 1..], IsDigit);
      var reach := Ahead(t, end);
      if cap < reach {
        ErrorTextLength(NoDigitAfterDecimal, t[Clip(reach, cap)..end], t[Clip(reach, wide)..end]);
      }
    }
  }

  lemma {:induction false} WordIsIdealIffFits(t: string, cap: nat, wide: nat)
    requires t != "" && 1 <= cap && 1 <= wide && |t| <= wide
    ensures ScanWord(t, cap) == ScanWord(t, wide) <==> Ahead(t, Span(t, IsWordRune)) <= cap
  {
    hide Span, ErrorText, KeywordType;
    var chunk := Span(t, IsWordRune);
    var from := Clip(Ahead(t, chunk), cap);
    if 0 < from {
      ErrorTextLength(InvalidNumber, t[from..chunk], t[0..chunk]);
    }
  }

  /** A run whose steps all fit gives the tokens of the unbounded text. */
  lemma {:induction false} FittingRunIsIdeal(t: string, line: nat, cap: nat, wide: nat)
    requires 1 <= cap && 1 <= wide && |t| <= wide
    requires Fits(t, cap)
    ensures LexFrom(t, line, cap) == LexFrom(t, line, wide)
    decreases |t|
  {
    hide ScanAt, ReachAt, Span;
    var rest := Skip(t);
    if rest != "" {
      StepIsIdealIffFits(rest, cap, wide);
      var r := ScanAt(rest, cap);
      if r.Tok? {
        FittingRunIsIdeal(rest[r.to..], NextLine(line, r.typ), cap, wide);
      }
    }
  }

  /** A window as wide as the text always fits. */
  lemma {:induction false} WideWindowFits(t: string, wide: nat)
    requires 1 <= wide && |t| <= wide
    ensures Fits(t, wide)
    decreases |t|
  {
    hide ScanAt, ReachAt, Span;
    var rest := Skip(t);
    if rest != "" && ScanAt(rest, wide).Tok? {
      WideWindowFits(rest[ScanAt(rest, wide).to..], wide);
    }
  }

  // ----- What is lost ------------------------------------------------------------------------

  /** The run over t ends behind a backslash, inside a string. */
  predicate EndsInEscape(t: string, cap: nat)
    requires 1 <= cap
    decreases |t|
  {
    var rest := Skip(t);
    rest != "" &&
    match ScanAt(rest, cap)
    case Tok(_, _, to) => EndsInEscape(rest[to..], cap)
    case Bad(_) => false
    case Stop => true
  }

  /** The texts of the tokens, each behind its gap. */
  function Weave(gaps: seq<string>, ts: seq<Token>): string
    requires |gaps| == |ts|
  {
    if ts == [] then "" else gaps[0] + ts[0].text + Weave(gaps[1..], ts[1..])
  }

  predicate AllBlank(gaps: seq<string>) {
    forall i, k :: 0 <= i < |gaps| && 0 <= k < |gaps[i]| ==> IsBlank(gaps[i][k])
  }

  /** Number of runes that are not white space. */
  function Ink(s: string): nat {
    if s == "" then 0 else (if IsSpace(s[0]) then 0 else 1) + Ink(s[1..])
  }

  function InkOf(ts: seq<Token>): nat {
    if ts == [] then 0 else Ink(ts[0].text) + InkOf(ts[1..])
  }

  lemma {:induction false} InkOfConcat(a: string, b: string)
    ensures Ink(a + b) == Ink(a) + Ink(b)
  {
    if a == "" {
      assert a + b == b;
    } else {
      InkOfConcat(a[1..], b);
      assert (a + b)[1..] == a[1..] + b;
    }
  }

  lemma {:induction false} BlankHasNoInk(s: string)
    requires forall k :: 0 <= k < |s| ==> IsBlank(s[k])
    ensures Ink(s) == 0
  {
    if s != "" {
      BlankHasNoInk(s[1..]);
    }
  }

  lemma {:induction false} InkOfWeave(gaps: seq<string>, ts: seq<Token>)
    requires |gaps| == |ts| && AllBlank(gaps)
    ensures Ink(Weave(gaps, ts)) == InkOf(ts)
  {
    if ts != [] {
      InkOfWeave(gaps[1..], ts[1..]);
      BlankHasNoInk(gaps[0]);
      InkOfConcat(gaps[0] + ts[0].text, Weave(gaps[1..], ts[1..]));
      InkOfConcat(gaps[0], ts[0].text);
    }
  }

  lemma {:induction false} InkOfSkip(t: string)
    ensures Ink(Skip(t)) == Ink(t)
    ensures Skip(t) != "" && Skip(t)[0] != '\n' ==> 0 < Ink(t)
  {
    var n := Span(t, IsBlank);
    SpanIsLongest(t, IsBlank, n);
    BlankHasNoInk(t[..n]);
    InkOfConcat(t[..n], t[n..]);
    assert t[..n] + t[n..] == t;
  }

  lemma {:induction false} InkOfCut(t: string, from: nat, to: nat)
    requires from <= to <= |t| && t != "" && (IsSpace(t[0]) ==> from == 0)
    ensures Ink(t) >= (if 0 < from then 1 else 0) + Ink(t[from..to]) + Ink(t[to..])
    ensures from == 0 ==> Ink(t) == Ink(t[..to]) + Ink(t[to..])
  {
    InkOfConcat(t[..from], t[from..to]);
    InkOfConcat(t[..from] + t[from..to], t[to..]);
    assert t[..from] + t[from..to] + t[to..] == t;
    assert t[0..to] == t[..to];
  }

  /** A step that cuts out a text from its first rune on fits. */
  lemma {:induction false} CutFits(t: string, cap: nat)
    requires t != "" && 1 <= cap && ScanAt(t, cap).Tok?
    ensures ScanAt(t, cap).from == 0 <==> ReachAt(t) <= cap
  {
  }

  lemma {:induction false} WeaveCons(gap: string, t: Token, gaps: seq<string>, ts: seq<Token>)
    requires |gaps| == |ts|
    ensures Weave([gap] + gaps, [t] + ts) == gap + t.text + Weave(gaps, ts)
    ensures AllBlank([gap]) && AllBlank(gaps) ==> AllBlank([gap] + gaps)
  {
  }

  lemma {:induction false} WeaveNothing(gap: string, line: nat)
    ensures Weave([gap], [Token(EOF, "", line)]) == gap
  {
  }

  lemma {:induction false} SkipSplits(t: string) returns (gap: string)
    ensures t == gap + Skip(t) && AllBlank([gap])
  {
    SpanIsLongest(t, IsBlank, Span(t, IsBlank));
    gap := t[..Span(t, IsBlank)];
  }

  /** The first step of a run, when it posts a token. */
  lemma {:induction false} RunStep(t: string, line: nat, cap: nat)
    requires 1 <= cap && Skip(t) != "" && ScanAt(Skip(t), cap).Tok?
    ensures
      var rest := Skip(t);
      var r := ScanAt(rest, cap);
      var more := rest[r.to..];
      && LexFrom(t, line, cap)
         == [Token(r.typ, rest[r.from..r.to], line)] + LexFrom(more, NextLine(line, r.typ), cap)
      && (Fits(t, cap) <==> r.from == 0 && Fits(more, cap))
      && (EndsInEscape(t, cap) <==> EndsInEscape(more, cap))
  {
    hide ScanAt, ReachAt, Span;
    CutFits(Skip(t), cap);
  }

  /** The first step of a run, when it is the last. */
  lemma {:induction false} RunStops(t: string, line: nat, cap: nat)
    requires 1 <= cap && (Skip(t) == "" || !ScanAt(Skip(t), cap).Tok?)
    ensures
      LexFrom(t, line, cap) ==
        [if Skip(t) != "" && ScanAt(Skip(t), cap).Bad? then Token(ERR, ScanAt(Skip(t), cap).text, line)
         else Token(EOF, "", line)]
    ensures EndsInEscape(t, cap) <==> Skip(t) != "" && ScanAt(Skip(t), cap).Stop?
  {
  }

  /** No run posts more ink than the text has, and it posts all of it only if nothing was dropped. */
  lemma {:induction false} InkBound(t: string, line: nat, cap: nat)
    requires 1 <= cap
    requires LexFrom(t, line, cap)[|LexFrom(t, line, cap)| - 1].typ == EOF
    ensures InkOf(LexFrom(t, line, cap)) <= Ink(t)
    ensures InkOf(LexFrom(t, line, cap)) == Ink(t) ==> Fits(t, cap) && !EndsInEscape(t, cap)
    decreases |t|
  {
    hide Skip, ScanAt, Span, IsSpace, LexFrom, LexAt, Ink, InkOf, Fits, EndsInEscape, NextLine;
    var rest := Skip(t);
    InkOfSkip(t);
    if rest == "" || !ScanAt(rest, cap).Tok? {
      RunStops(t, line, cap);
      InkOfLast(t, line, cap);
    } else {
      RunStep(t, line, cap);
      var r := ScanAt(rest, cap);
      var more := LexFrom(rest[r.to..], NextLine(line, r.typ), cap);
      LastOfCons(Token(r.typ, rest[r.from..r.to], line), more);
      InkBound(rest[r.to..], NextLine(line, r.typ), cap);
      InkOfCut(rest, r.from, r.to);
    }
  }

  /** At the end of a text nothing is left to post, and nothing was dropped if nothing was left. */
  lemma {:induction false} InkOfLast(t: string, line: nat, cap: nat)
    requires 1 <= cap
    ensures InkOf([Token(EOF, "", line)]) == 0
    ensures Skip(t) == "" ==> Fits(t, cap) && !EndsInEscape(t, cap)
  {
  }

  lemma {:induction false} LastOfCons(t: Token, ts: seq<Token>)
    requires ts != []
    ensures InkOf([t] + ts) == Ink(t.text) + InkOf(ts)
    ensures ([t] + ts)[|[t] + ts| - 1] == ts[|ts| - 1]
  {
    assert ([t] + ts)[1..] == ts;
  }

  /** A run that drops nothing leaves only blanks between its token texts. */
  lemma {:induction false} RunWeaves(t: string, line: nat, cap: nat) returns (gaps: seq<string>)
    requires 1 <= cap && Fits(t, cap) && !EndsInEscape(t, cap)
    requires LexFrom(t, line, cap)[|LexFrom(t, line, cap)| - 1].typ == EOF
    ensures |gaps| == |LexFrom(t, line, cap)| && AllBlank(gaps)
    ensures Weave(gaps, LexFrom(t, line, cap)) == t
    decreases |t|
  {
    hide Skip, ScanAt, Span, Weave, AllBlank, LexFrom, LexAt, Fits, EndsInEscape;
    var rest := Skip(t);
    var gap := SkipSplits(t);
    if rest == "" || !ScanAt(rest, cap).Tok? {
      RunStops(t, line, cap);
      WeaveNothing(gap, line);
      return [gap];
    }
    RunStep(t, line, cap);
    var r := ScanAt(rest, cap);
    var tok := Token(r.typ, rest[r.from..r.to], line);
    var ts := LexFrom(rest[r.to..], NextLine(line, r.typ), cap);
    assert LexFrom(t, line, cap)[1..] == ts;
    gaps := RunWeaves(rest[r.to..], NextLine(line, r.typ), cap);
    WeaveCons(gap, tok, gaps, ts);
    assert rest == tok.text + rest[r.to..];
    gaps := [gap] + gaps;
  }

  /** A run without an error token keeps the whole text - the token texts, with only blanks between
      them, make up the input - exactly if every step fits into the window and the text does not
      end inside an escape. */
  lemma {:induction false} NothingLostIff(text: string, cap: nat)
    requires 1 <= cap
    requires Lex(text, cap)[|Lex(text, cap)| - 1].typ == EOF
    ensures
      (exists gaps :: |gaps| == |Lex(text, cap)| && AllBlank(gaps) && Weave(gaps, Lex(text, cap)) == text)
      <==> Fits(text, cap) && !EndsInEscape(text, cap)
  {
    hide LexFrom, Fits, EndsInEscape, Weave;
    var ts := Lex(text, cap);
    if Fits(text, cap) && !EndsInEscape(text, cap) {
      var gaps := RunWeaves(text, 1, cap);
    }
    if gaps :| |gaps| == |ts| && AllBlank(gaps) && Weave(gaps, ts) == text {
      InkOfWeave(gaps, ts);
      InkBound(text, 1, cap);
    }
  }

  // ----- Texts at which something is lost ------------------------------------------------------

  /** A word that is longer than the window loses its first letters; what is left may even be a keyword. */
  lemma {:induction false} LongWordIsCut(w: string, cap: nat)
    requires 1 <= cap < |w| && forall k :: 0 <= k < |w| ==> IsAlpha(w[k])
    ensures
      var rest := w[|w| - cap..];
      Lex(w, cap) == [Token(KeywordType(rest), rest, 1), Token(EOF, "", 1)] && !Fits(w, cap)
  {
    hide Skip, ScanAt, KeywordType, Fits, LexFrom, IsAlpha, NextLine;
    LongWordScan(w, cap);
    var typ := KeywordType(w[|w| - cap..]);
    assert w[|w| - cap..|w|] == w[|w| - cap..] && w[|w|..] == "";
    RunStep(w, 1, cap);
    assert NextLine(1, typ) == 1 by { WordKeepsLine(1, typ); }
    SkipNothing();
    RunStops("", 1, cap);
  }

  lemma {:induction false} WordKeepsLine(line: nat, typ: TokenType)
    requires IsWord(typ)
    ensures NextLine(line, typ) == line
  {
  }

  lemma {:induction false} SkipNothing()
    ensures Skip("") == ""
  {
  }

  lemma {:induction false} LongWordScan(w: string, cap: nat)
    requires 1 <= cap < |w| && forall k :: 0 <= k < |w| ==> IsAlpha(w[k])
    ensures Skip(w) == w && ScanAt(w, cap) == Tok(KeywordType(w[|w| - cap..]), |w| - cap, |w|)
  {
    hide KeywordType, Span;
    var rest := w[|w| - cap..];
    SpanIsLongest(w, IsBlank, 0);
    SpanIsLongest(w, IsWordRune, |w|);
    SpanIsLongest(rest[1..], IsIdRest, cap - 1);
    assert w[|w| - cap..|w|] == rest && w[|w| - cap + 1..] == rest[1..];
  }

  /** A text that ends inside an escape ends in a plain EOF, and all of its string is lost. */
  lemma {:induction false} EscapeAtEndIsLost(cap: nat)
    requires 1 <= cap
    ensures Lex("\"\\", cap) == [Token(EOF, "", 1)]
    ensures Fits("\"\\", cap) && EndsInEscape("\"\\", cap)
  {
    var t := "\"\\";
    assert CloseOf(t[1..]) == Dangling;
    assert Skip(t) == t;
    RunStops(t, 1, cap);
  }

  // ----- Lines and the last token ------------------------------------------------------------

  function LineEnds(ts: seq<Token>): nat {
    if ts == [] then 0 else (if ts[0].typ == EOL then 1 else 0) + LineEnds(ts[1..])
  }

  /** The line of a token is one more than the number of EOL tokens before it. */
  lemma {:induction false} LineCountsLineEnds(t: string, line: nat, cap: nat, k: nat)
    requires 1 <= cap && k < |LexFrom(t, line, cap)|
    ensures LexFrom(t, line, cap)[k].line == line + LineEnds(LexFrom(t, line, cap)[..k])
    decreases k
  {
    hide ScanAt, Span;
    if 0 < k {
      var rest := Skip(t);
      var r := ScanAt(rest, cap);
      var ts := LexFrom(rest[r.to..], NextLine(line, r.typ), cap);
      LineCountsLineEnds(rest[r.to..], NextLine(line, r.typ), cap, k - 1);
      assert LexFrom(t, line, cap)[..k][1..] == ts[..k - 1];
    }
  }

  /** The channel carries exactly one EOF or error token, and it is the last. */
  predicate WellEnded(ts: seq<Token>) {
    forall k :: 0 <= k < |ts| ==> (ts[k].typ in {EOF, ERR} <==> k == |ts| - 1)
  }

  lemma {:induction false} LexIsWellEnded(t: string, line: nat, cap: nat)
    requires 1 <= cap
    ensures WellEnded(LexFrom(t, line, cap))
    decreases |t|
  {
    hide ScanAt, Span;
    var rest := Skip(t);
    if rest != "" && ScanAt(rest, cap).Tok? {
      var r := ScanAt(rest, cap);
      LexIsWellEnded(rest[r.to..], NextLine(line, r.typ), cap);
    }
  }
}
