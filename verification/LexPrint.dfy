/** Printing tokens and lexing the print again. */
module LexPrint {
  import opened Runes
  import opened Tokens
  import opened LexSpec
  import opened LexTheorems

  // ----- Well-formed tokens ------------------------------------------------------------------

  /** The shapes that the lexer posts when it cuts nothing off. */
  predicate WellFormed(x: Shape) {
    && x.text != ""
    && match x.typ
       case EOF => false
       case ERR => false
       case STRING => x.text[0] == '"' && CloseOf(x.text[1..]) == Closed(|x.text| - 1)
       case INT => IsInt(x.text)
       case NUMBER => IsDecimal(x.text)
       case IDENTIFIER => IsIdentifier(x.text)
       case _ => (PunctuationType(x.text[0]) == x.typ && |x.text| == 1) || KeywordType(x.text) == x.typ
  }

  predicate IsInt(s: string)
    requires s != ""
  {
    var (sign, whole) := WholePart(s);
    sign < whole == |s|
  }

  predicate IsDecimal(s: string)
    requires s != ""
  {
    var (sign, whole) := WholePart(s);
    && sign < whole < |s| && s[whole] == '.'
    && 0 < Span(s[whole + 1..], IsDigit) == |s| - whole - 1
  }

  predicate IsIdentifier(s: string)
    requires s != ""
  {
    IsIdStart(s[0]) && Span(s[1..], IsIdRest) == |s| - 1
  }

  lemma {:induction false} SpanOfPrefix(s: string, f: char -> bool, n: nat)
    requires n <= |s|
    ensures Span(s[..n], f) == Min(n, Span(s, f))
  {
    if 0 < n {
      SpanOfPrefix(s[1..], f, n - 1);
      assert s[..n][1..] == s[1..][..n - 1];
    }
  }

  lemma {:induction false} CloseOfPrefix(s: string)
    requires CloseOf(s).Closed?
    ensures CloseOf(s[..CloseOf(s).n]) == CloseOf(s)
  {
    var n := CloseOf(s).n;
    if s[0] == '"' {
    } else {
      var k := if s[0] != '\\' then 1 else 2;
      assert CloseOf(s) == Later(k, CloseOf(s[k..]));
      CloseOfPrefix(s[k..]);
      assert s[..n][k..] == s[k..][..n - k];
    }
  }

  lemma {:induction false} SpanOfConcat(a: string, b: string, f: char -> bool)
    ensures Span(a + b, f) == if Span(a, f) == |a| then |a| + Span(b, f) else Span(a, f)
  {
    if a == "" {
      assert a + b == b;
    } else {
      SpanOfConcat(a[1..], b, f);
      assert (a + b)[1..] == a[1..] + b;
    }
  }

  lemma {:induction false} CloseOfConcat(a: string, b: string)
    requires CloseOf(a).Closed?
    ensures CloseOf(a + b) == CloseOf(a)
  {
    if a[0] == '"' {
    } else if a[0] != '\\' {
      CloseOfConcat(a[1..], b);
      assert (a + b)[1..] == a[1..] + b;
    } else {
      CloseOfConcat(a[2..], b);
      assert (a + b)[2..] == a[2..] + b;
    }
  }

  lemma {:induction false} KeywordIsAlpha(s: string)
    requires KeywordType(s) != IDENTIFIER
    ensures s != "" && forall k :: 0 <= k < |s| ==> IsAlpha(s[k])
  {
    if
    case |s| <= 2 => assert s == "as" || s == "to";
    case |s| == 3 => assert s == "and" || s == "var" || s == "cut" || s == "set" || s == "tag";
    case |s| == 4 => assert s == "sink" || s == "dupe" || s == "with" || s == "join";
    case |s| == 5 => assert s == "async" || s == "merge";
    case |s| >= 6 => assert s == "source" || s == "append" || s == "fanout";
  }

  // ----- From the text to well-formed tokens --------------------------------------------------

  /** A step that fits cuts out a well-formed token. */
  lemma {:induction false} ScanIsWellFormed(t: string, cap: nat)
    requires t != "" && 1 <= cap && ReachAt(t) <= cap && ScanAt(t, cap).Tok?
    ensures WellFormed(Shape(ScanAt(t, cap).typ, t[..ScanAt(t, cap).to]))
  {
    hide Span, CloseOf, KeywordType;
    var to := ScanAt(t, cap).to;
    if PunctuationType(t[0]) != ERR {
    } else if t[0] == '"' {
      CloseOfPrefix(t[1..]);
      assert t[1..][..to - 1] == t[..to][1..];
    } else if t[0] == '-' || IsDigit(t[0]) {
      NumberIsWellFormed(t, cap);
    } else {
      WordIsWellFormed(t, cap);
    }
  }

  lemma {:induction false} NumberIsWellFormed(t: string, cap: nat)
    requires t != "" && 1 <= cap && ScanNumber(t, cap).Tok?
    ensures WellFormed(Shape(ScanNumber(t, cap).typ, t[..ScanNumber(t, cap).to]))
  {
    hide Span;
    var (sign, whole) := WholePart(t);
    var to := ScanNumber(t, cap).to;
    WholeOfPrefix(t, to);
    if whole < to {
      SpanOfPrefix(t[whole + 1..], IsDigit, to - whole - 1);
      assert t[whole + 1..][..to - whole - 1] == t[..to][whole + 1..];
    }
  }

  lemma {:induction false} WholeOfPrefix(t: string, n: nat)
    requires t != "" && WholePart(t).0 < WholePart(t).1 <= n <= |t|
    ensures WholePart(t[..n]) == WholePart(t)
  {
    hide Span;
    var sign := WholePart(t).0;
    SpanOfPrefix(t[sign..], IsDigit, n - sign);
    assert t[sign..][..n - sign] == t[..n][sign..];
  }

  lemma {:induction false} WordIsWellFormed(t: string, cap: nat)
    requires t != "" && 1 <= cap && ScanWord(t, cap).Tok?
    requires Ahead(t, Span(t, IsWordRune)) <= cap
    ensures WellFormed(Shape(ScanWord(t, cap).typ, t[..ScanWord(t, cap).to]))
  {
    hide Span, KeywordType;
    var to := ScanWord(t, cap).to;
    assert t[0..to] == t[..to];
    if ScanWord(t, cap).typ == IDENTIFIER {
      SpanOfPrefix(t[1..], IsIdRest, to - 1);
      assert t[1..][..to - 1] == t[..to][1..];
    } else {
      KeywordIsAlpha(t[..to]);
    }
  }

  /** All tokens of a run that fits, but for the last, are well formed. */
  lemma {:induction false} RunIsWellFormed(t: string, line: nat, cap: nat)
    requires 1 <= cap && Fits(t, cap)
    ensures
      var ts := LexFrom(t, line, cap);
      forall k :: 0 <= k < |ts| - 1 ==> WellFormed(ShapeOf(ts[k]))
    decreases |t|
  {
    hide Skip, ScanAt, Span, LexFrom, LexAt, Fits, WellFormed;
    var rest := Skip(t);
    if rest == "" || !ScanAt(rest, cap).Tok? {
      RunStops(t, line, cap);
    } else {
      var r := ScanAt(rest, cap);
      RunStep(t, line, cap);
      StepFits(t, cap);
      ScanIsWellFormed(rest, cap);
      RunIsWellFormed(rest[r.to..], NextLine(line, r.typ), cap);
      assert rest[0..r.to] == rest[..r.to];
    }
  }

  lemma {:induction false} StepFits(t: string, cap: nat)
    requires 1 <= cap && Fits(t, cap) && Skip(t) != ""
    ensures ReachAt(Skip(t)) <= cap
  {
  }

  // ----- From tokens to the text and back -----------------------------------------------------

  /** A token to be printed, with or without a space in front of it. */
  datatype Bit = Bit(gap: bool, shape: Shape)

  function GapOf(b: Bit): string { if b.gap then " " else "" }

  function Print(bits: seq<Bit>): string {
    if bits == [] then "" else GapOf(bits[0]) + (bits[0].shape.text + Print(bits[1..]))
  }

  lemma {:induction false} PrintConcat(a: seq<Bit>, b: seq<Bit>)
    ensures Print(a + b) == Print(a) + Print(b)
  {
    if a == [] {
      assert a + b == b;
    } else {
      PrintConcat(a[1..], b);
      assert (a + b)[1..] == a[1..] + b;
      Regroup(GapOf(a[0]), a[0].shape.text, Print(a[1..]), Print(b));
    }
  }

  lemma {:induction false} Regroup(a: string, b: string, c: string, d: string)
    ensures a + (b + (c + d)) == a + (b + c) + d
  {
  }

  lemma {:induction false} PrintNone()
    ensures Print([]) == ""
  {
  }

  lemma {:induction false} PrintOne(b: Bit)
    ensures Print([b]) == GapOf(b) + b.shape.text
  {
  }

  /** What stands behind the token does not run into it. */
  predicate Ends(x: Shape, next: string) {
    || next == ""
    || if x.typ == IDENTIFIER then !IsIdRest(next[0])
       else if x.typ == INT then !IsDigit(next[0]) && next[0] != '.'
       else if x.typ == NUMBER then !IsDigit(next[0])
       else KeywordType(x.text) == x.typ ==> !IsWordRune(next[0])
  }

  /** The type that the token has when it is lexed again: an identifier that spells a keyword stays
      one only if the chunk it stands in goes on behind it. */
  function Relexed(x: Shape, next: string): TokenType {
    if x.typ == IDENTIFIER && (next == "" || !IsWordRune(next[0])) then KeywordType(x.text) else x.typ
  }

  predicate Separated(bits: seq<Bit>) {
    bits != [] ==>
      && WellFormed(bits[0].shape)
      && Ends(bits[0].shape, Print(bits[1..]))
      && Separated(bits[1..])
  }

  function Relex(bits: seq<Bit>): (r: seq<Shape>)
    ensures |r| == |bits|
  {
    if bits == [] then []
    else [Shape(Relexed(bits[0].shape, Print(bits[1..])), bits[0].shape.text)] + Relex(bits[1..])
  }

  lemma {:induction false} FirstRune(x: Shape)
    requires WellFormed(x)
    ensures !IsBlank(x.text[0])
    ensures x.typ == IDENTIFIER || KeywordType(x.text) == x.typ ==> IsIdStart(x.text[0])
    ensures x.typ in {INT, NUMBER} ==> x.text[0] == '-' || IsDigit(x.text[0])
  {
    hide KeywordType;
    if KeywordType(x.text) != IDENTIFIER {
      KeywordIsAlpha(x.text);
    } else if x.typ == INT || x.typ == NUMBER {
      var (sign, whole) := WholePart(x.text);
      SpanIsLongest(x.text[sign..], IsDigit, whole - sign);
    }
  }

  /** A well-formed token at the head of a text is what the lexer finds there. */
  lemma {:induction false} ScanPrinted(x: Shape, next: string, cap: nat)
    requires WellFormed(x) && Ends(x, next)
    requires 1 <= cap && ReachAt(x.text + next) <= cap
    ensures ScanAt(x.text + next, cap) == Tok(Relexed(x, next), 0, |x.text|)
  {
    hide Span, KeywordType, ErrorText, IsInt, IsDecimal, IsIdentifier, ReachAt, ScanString, ScanNumber, ScanWord;
    FirstRune(x);
    if x.typ == STRING {
      StringPrinted(x, next, cap);
    } else if x.typ == INT || x.typ == NUMBER {
      NumberPrinted(x, next, cap);
    } else if x.typ == IDENTIFIER || KeywordType(x.text) == x.typ {
      WordPrinted(x, next, cap);
    }
  }

  lemma {:induction false} StringPrinted(x: Shape, next: string, cap: nat)
    requires WellFormed(x) && x.typ == STRING
    requires 1 <= cap && ReachAt(x.text + next) <= cap
    ensures ScanString(x.text + next, cap) == Tok(STRING, 0, |x.text|)
  {
    hide KeywordType, ErrorText, CloseOf, Span, IsInt, IsDecimal, IsIdentifier, WholePart;
    CloseOfConcat(x.text[1..], next);
    assert (x.text + next)[1..] == x.text[1..] + next;
  }

  lemma {:induction false} NumberPrinted(x: Shape, next: string, cap: nat)
    requires WellFormed(x) && Ends(x, next) && (x.typ == INT || x.typ == NUMBER)
    requires 1 <= cap && ReachAt(x.text + next) <= cap
    ensures ScanNumber(x.text + next, cap) == Tok(x.typ, 0, |x.text|)
  {
    hide Span, KeywordType, ErrorText, CloseOf;
    FirstRune(x);
    WholePrinted(x.text, next);
    if x.typ == NUMBER {
      FractionPrinted(x.text, next);
    }
  }

  lemma {:induction false} FractionPrinted(s: string, next: string)
    requires s != "" && IsDecimal(s) && (next == "" || !IsDigit(next[0]))
    ensures
      var whole := WholePart(s).1;
      Span((s + next)[whole + 1..], IsDigit) == |s| - whole - 1
  {
    hide Span;
    var whole := WholePart(s).1;
    assert (s + next)[whole + 1..] == s[whole + 1..] + next;
    SpanEnds(s[whole + 1..], next, IsDigit);
  }

  lemma {:induction false} WholePrinted(s: string, next: string)
    requires s != "" && (WholePart(s).1 == |s| ==> next == "" || !IsDigit(next[0]))
    ensures WholePart(s + next) == WholePart(s)
  {
    hide Span;
    var sign := WholePart(s).0;
    assert (s + next)[sign..] == s[sign..] + next;
    SpanEnds(s[sign..], next, IsDigit);
  }

  /** A run ends in front of a rune that is not in it. */
  lemma {:induction false} SpanEnds(a: string, next: string, f: char -> bool)
    requires Span(a, f) == |a| ==> next == "" || !f(next[0])
    ensures Span(a + next, f) == Span(a, f)
  {
    SpanOfConcat(a, next, f);
  }

  lemma {:induction false} WordPrinted(x: Shape, next: string, cap: nat)
    requires WellFormed(x) && Ends(x, next) && (x.typ == IDENTIFIER || KeywordType(x.text) == x.typ)
    requires 1 <= cap && ReachAt(x.text + next) <= cap
    ensures ScanWord(x.text + next, cap) == Tok(Relexed(x, next), 0, |x.text|)
  {
    hide Span, KeywordType;
    FirstRune(x);
    var t := x.text + next;
    SpanOfConcat(x.text, next, IsWordRune);
    SpanStep(next, 0, IsWordRune);
    assert next[0..] == next;
    if next == "" || !IsWordRune(next[0]) {
      SpanEnds(x.text, next, IsWordRune);
    }
    if x.typ == IDENTIFIER {
      SpanEnds(x.text[1..], next, IsIdRest);
      assert t[1..] == x.text[1..] + next;
      WordOfIdentifier(x.text);
    } else {
      WordOfKeyword(x.text);
    }
    var chunk := Span(t, IsWordRune);
    if |x.text| < chunk {
      assert t[..chunk][|x.text|] == next[0];
      NoKeyword(t[..chunk], |x.text|);
    }
    assert t[..|x.text|] == x.text;
    assert t[0..chunk] == t[..chunk];
  }

  lemma {:induction false} NoKeyword(s: string, k: nat)
    requires k < |s| && !IsAlpha(s[k])
    ensures KeywordType(s) == IDENTIFIER
  {
  }

  lemma {:induction false} WordOfIdentifier(s: string)
    requires s != "" && IsIdentifier(s)
    ensures Span(s, IsWordRune) == |s|
  {
    SpanNarrower(s[1..], IsIdRest, IsWordRune);
  }

  lemma {:induction false} WordOfKeyword(s: string)
    requires KeywordType(s) != IDENTIFIER
    ensures Span(s, IsWordRune) == |s|
  {
    hide KeywordType;
    KeywordIsAlpha(s);
    SpanIsLongest(s, IsWordRune, |s|);
  }

  /** Printing well-formed, separated tokens and lexing the print gives their texts back, and their
      types but for identifiers that then stand as a keyword of their own. */
  lemma {:induction false} PrintThenLex(bits: seq<Bit>, line: nat, cap: nat)
    requires 1 <= cap && Separated(bits) && Fits(Print(bits), cap)
    ensures Shapes(LexFrom(Print(bits), line, cap)) == Relex(bits) + [Shape(EOF, "")]
  {
    hide ScanAt, ReachAt, Span, LexFrom, LexAt, Fits, WellFormed, Ends, Relexed, Skip;
    var t := Print(bits);
    SkipPrint(bits);
    if bits == [] {
      RunStops(t, line, cap);
      assert Shapes([Token(EOF, "", line)]) == [Shape(EOF, "")];
    } else {
      var x, next := bits[0].shape, Print(bits[1..]);
      WellFormedText(x);
      StepFits(t, cap);
      ScanPrinted(x, next, cap);
      RunStep(t, line, cap);
      assert Skip(t)[0..|x.text|] == x.text && Skip(t)[|x.text|..] == next;
      var line' := NextLine(line, Relexed(x, next));
      PrintThenLex(bits[1..], line', cap);
      ShapesCons(Token(Relexed(x, next), x.text, line), LexFrom(next, line', cap));
    }
  }

  lemma {:induction false} ShapesCons(t: Token, ts: seq<Token>)
    ensures Shapes([t] + ts) == [ShapeOf(t)] + Shapes(ts)
  {
  }

  lemma {:induction false} SkipPrint(bits: seq<Bit>)
    requires Separated(bits)
    ensures Skip(Print(bits)) == if bits == [] then "" else bits[0].shape.text + Print(bits[1..])
  {
    hide WellFormed, Skip, Ends, IsBlank;
    if bits == [] {
      SkipGap("", "");
    } else {
      WellFormedText(bits[0].shape);
      FirstRune(bits[0].shape);
      SkipGap(GapOf(bits[0]), bits[0].shape.text + Print(bits[1..]));
    }
  }

  lemma {:induction false} SkipGap(gap: string, rest: string)
    requires gap == "" || gap == " "
    requires rest != "" ==> !IsBlank(rest[0])
    ensures Skip(gap + rest) == rest
  {
    SpanIsLongest(gap + rest, IsBlank, |gap|);
  }

  lemma {:induction false} WellFormedText(x: Shape)
    requires WellFormed(x)
    ensures x.text != ""
  {
  }

  // ----- Prints that fit into the window -------------------------------------------------------

  /** Every token leaves one rune of the window free, and a word also the chunk that it runs into. */
  predicate Roomy(bits: seq<Bit>, cap: nat) {
    bits != [] ==>
      && |bits[0].shape.text| + 1
         + (if IsWord(bits[0].shape.typ) then Span(Print(bits[1..]), IsWordRune) else 0) <= cap
      && Roomy(bits[1..], cap)
  }

  lemma {:induction false} ReachPrinted(x: Shape, next: string)
    requires WellFormed(x) && Ends(x, next)
    ensures ReachAt(x.text + next) <= |x.text| + 1 + if IsWord(x.typ) then Span(next, IsWordRune) else 0
  {
    hide Span, CloseOf, KeywordType, IsDecimal, IsIdentifier;
    FirstRune(x);
    var t := x.text + next;
    if x.typ == STRING {
      CloseOfConcat(x.text[1..], next);
      assert t[1..] == x.text[1..] + next;
    } else if x.typ == INT || x.typ == NUMBER {
      ReachOfNumber(x, next);
    } else {
      SpanOfConcat(x.text, next, IsWordRune);
    }
  }

  lemma {:induction false} ReachOfNumber(x: Shape, next: string)
    requires WellFormed(x) && Ends(x, next) && (x.typ == INT || x.typ == NUMBER)
    ensures ReachAt(x.text + next) <= |x.text| + 1
  {
    hide Span, KeywordType;
    FirstRune(x);
    var t := x.text + next;
    WholePrinted(x.text, next);
    if x.typ == NUMBER {
      var whole := WholePart(t).1;
      assert t[whole + 1..] == x.text[whole + 1..] + next;
      SpanEnds(x.text[whole + 1..], next, IsDigit);
    }
  }

  lemma {:induction false} PrintFits(bits: seq<Bit>, cap: nat)
    requires 1 <= cap && Separated(bits) && Roomy(bits, cap)
    ensures Fits(Print(bits), cap)
  {
    hide Span, ReachAt, ScanAt, WellFormed, Ends, Relexed, Skip;
    SkipPrint(bits);
    if bits != [] {
      var x, next := bits[0].shape, Print(bits[1..]);
      ReachPrinted(x, next);
      ScanPrinted(x, next, cap);
      assert (x.text + next)[|x.text|..] == next;
      PrintFits(bits[1..], cap);
    }
  }

  /** The ink of some tokens. */
  function InkIn(xs: seq<Shape>): nat {
    if xs == [] then 0 else Ink(xs[0].text) + InkIn(xs[1..])
  }

  lemma {:induction false} InkOfTokens(ts: seq<Token>)
    ensures InkOf(ts) == InkIn(Shapes(ts))
  {
    if ts != [] {
      InkOfTokens(ts[1..]);
      assert Shapes(ts)[1..] == Shapes(ts[1..]);
    }
  }

  lemma {:induction false} InkInConcat(xs: seq<Shape>, ys: seq<Shape>)
    ensures InkIn(xs + ys) == InkIn(xs) + InkIn(ys)
  {
    if xs == [] {
      assert xs + ys == ys;
    } else {
      InkInConcat(xs[1..], ys);
      assert (xs + ys)[1..] == xs[1..] + ys;
    }
  }

  lemma {:induction false} InkOfPrint(bits: seq<Bit>, xs: seq<Shape>)
    requires |bits| == |xs| && forall k :: 0 <= k < |xs| ==> bits[k].shape == xs[k]
    ensures Ink(Print(bits)) == InkIn(xs)
  {
    hide Ink;
    if bits == [] {
      BlankHasNoInk("");
    } else {
      InkOfPrint(bits[1..], xs[1..]);
      GapHasNoInk(bits[0]);
      InkOfConcat(bits[0].shape.text, Print(bits[1..]));
      InkOfConcat(GapOf(bits[0]), bits[0].shape.text + Print(bits[1..]));
    }
  }

  lemma {:induction false} GapHasNoInk(b: Bit)
    ensures Ink(GapOf(b)) == 0
  {
    BlankHasNoInk(GapOf(b));
  }

  /** A print whose tokens come back with all their ink fits into the window. */
  lemma {:induction false} FullInkFits(text: string, cap: nat)
    requires 1 <= cap
    requires
      var got := Shapes(Lex(text, cap));
      got[|got| - 1].typ.EOF? && Ink(text) <= InkIn(got)
    ensures Fits(text, cap)
  {
    hide LexFrom, Fits, EndsInEscape, Ink, InkIn, InkOf;
    InkOfTokens(Lex(text, cap));
    InkBound(text, 1, cap);
  }

  // ----- Tokens printed with single spaces -----------------------------------------------------

  function Spaced(xs: seq<Shape>): (bits: seq<Bit>)
    ensures |bits| == |xs|
    ensures forall k :: 0 <= k < |xs| ==> bits[k] == Bit(true, xs[k])
  {
    if xs == [] then [] else [Bit(true, xs[0])] + Spaced(xs[1..])
  }

  predicate SpellsKeyword(x: Shape) {
    x.typ == IDENTIFIER && KeywordType(x.text) != IDENTIFIER
  }

  lemma {:induction false} SpacedRelex(xs: seq<Shape>)
    requires forall k :: 0 <= k < |xs| ==> WellFormed(xs[k])
    ensures Separated(Spaced(xs))
    ensures Relex(Spaced(xs)) == xs <==> forall k :: 0 <= k < |xs| ==> !SpellsKeyword(xs[k])
  {
    hide WellFormed, KeywordType, SpellsKeyword, Ends, Relexed, Span;
    if xs != [] {
      SpacedRelex(xs[1..]);
      SpacedHead(xs[0], Print(Spaced(xs[1..])));
      NoneSpellsKeyword(xs);
      assert Spaced(xs)[1..] == Spaced(xs[1..]);
      SameHeadAndTail(Relex(Spaced(xs)), xs);
    }
  }

  lemma {:induction false} SameHeadAndTail<T>(xs: seq<T>, ys: seq<T>)
    requires xs != [] && ys != []
    ensures xs == ys <==> xs[0] == ys[0] && xs[1..] == ys[1..]
  {
  }

  lemma {:induction false} NoneSpellsKeyword(xs: seq<Shape>)
    requires xs != []
    ensures (forall k :: 0 <= k < |xs| ==> !SpellsKeyword(xs[k]))
      <==> !SpellsKeyword(xs[0]) && forall k :: 0 <= k < |xs[1..]| ==> !SpellsKeyword(xs[1..][k])
  {
    hide SpellsKeyword;
    assert forall k :: 0 < k < |xs| ==> xs[k] == xs[1..][k - 1];
  }

  lemma {:induction false} SpacedHead(x: Shape, next: string)
    requires WellFormed(x) && (next == "" || next[0] == ' ')
    ensures Ends(x, next) && Span(next, IsWordRune) == 0
    ensures Relexed(x, next) == x.typ <==> !SpellsKeyword(x)
  {
  }

  /** Such a print fits if every token leaves one rune of the window free. */
  lemma {:induction false} SpacedFits(xs: seq<Shape>, cap: nat)
    requires forall k :: 0 <= k < |xs| ==> WellFormed(xs[k]) && |xs[k].text| + 1 <= cap
    requires 1 <= cap
    ensures Fits(Print(Spaced(xs)), cap)
  {
    hide WellFormed, Separated, Fits, Print, Roomy;
    SpacedRelex(xs);
    SpacedIsRoomy(xs, cap);
    PrintFits(Spaced(xs), cap);
  }

  lemma {:induction false} SpacedIsRoomy(xs: seq<Shape>, cap: nat)
    requires forall k :: 0 <= k < |xs| ==> |xs[k].text| + 1 <= cap
    ensures Roomy(Spaced(xs), cap)
  {
    if xs != [] {
      SpacedIsRoomy(xs[1..], cap);
      assert Spaced(xs)[1..] == Spaced(xs[1..]);
    }
  }

  /** Well-formed tokens that are printed with single spaces lex back to themselves exactly if the print
      fits into the window and no identifier among them spells a keyword. */
  lemma {:induction false} SpacedRoundTrip(xs: seq<Shape>, cap: nat)
    requires 1 <= cap && forall k :: 0 <= k < |xs| ==> WellFormed(xs[k])
    ensures Shapes(Lex(Print(Spaced(xs)), cap)) == xs + [Shape(EOF, "")]
      <==> Fits(Print(Spaced(xs)), cap) && forall k :: 0 <= k < |xs| ==> !SpellsKeyword(xs[k])
  {
    hide WellFormed, KeywordType, Print, Relex, LexFrom, Fits, Separated, SpellsKeyword;
    var text := Print(Spaced(xs));
    SpacedRelex(xs);
    if Shapes(Lex(text, cap)) == xs + [Shape(EOF, "")] {
      InkOfPrint(Spaced(xs), xs);
      InkInConcat(xs, [Shape(EOF, "")]);
      FullInkFits(text, cap);
    }
    if Fits(text, cap) {
      PrintThenLex(Spaced(xs), 1, cap);
      SameFrontIff(Relex(Spaced(xs)), xs, Shape(EOF, ""));
    }
  }

  lemma {:induction false} SameFrontIff<T>(xs: seq<T>, ys: seq<T>, x: T)
    ensures xs + [x] == ys + [x] <==> xs == ys
  {
    if xs + [x] == ys + [x] {
      assert |xs + [x]| == |ys + [x]|;
      assert xs == (xs + [x])[..|xs|] && ys == (ys + [x])[..|ys|];
    }
  }
}
