/** The written form of statements and tokens, told rune by rune. */
module Forms {
  import opened Options
  import opened Runes
  import opened Tokens
  import opened LexSpec
  import opened LexTheorems
  import opened LexPrint
  import opened Syntax
  import C = Cut
  import V = Values

  // ----- Canonical texts -----------------------------------------------------------------------

  /** Words with single spaces between them. */
  function Words(words: seq<string>): string { C.Join(words, " ") }

  function Settings(fields: seq<(string, string)>): (r: seq<string>)
    ensures |r| == |fields|
  {
    if fields == [] then [] else [fields[0].0 + " = " + fields[0].1] + Settings(fields[1..])
  }

  /** The members of a list behind something else. */
  function Listed(texts: seq<string>): string {
    if texts == [] then "" else " " + C.Join(texts, ", ")
  }

  function Class(qualifier: string, class_: string, args: seq<Shape>): string {
    " " + qualifier + "." + class_ + Listed(TextsIn(args))
  }

  /** How each statement is written. */
  function Written(s: Stmt): string {
    match s
    case Blank => "\n"
    case Source(id, q, c, args) => Words(["source", "as", id]) + Class(q, c, args)
    case Sink(src, q, c, args) => Words(["sink", src, "to"]) + Class(q, c, args)
    case AsyncSink(src, id, q, c, args) => Words(["sink", src, "async", "as", id, "to"]) + Class(q, c, args)
    case Merge(a, b, id) => Words(["merge", a, "and", b, "as", id])
    case Dupe(src, a, b) => Words(["dupe", src, "as", a, "and", b])
    case Append(src, target) => Words(["append", src, "to", target])
    case Cut(delimiter, src, fields) =>
      Words(["cut"] + (if delimiter.Some? then ["with", delimiter.value] else []) + [src, "set", "("])
      + C.Join(Settings(fields), ", ") + ")"
    case Fanout(src, a, b) => Words(["fanout", src, "as", a, "and", b])
    case Tag(src, tag) => Words(["tag", src, "with", tag])
    case Join(src, patterns) => Words(["join", src, "with"]) + Listed(patterns)
  }

  /** Tokens with a space in front of all but the first. */
  lemma {:induction false} PrintWords(bits: seq<Bit>, words: seq<string>)
    requires bits != [] && |bits| == |words|
    requires forall k :: 0 <= k < |bits| ==> bits[k].shape.text == words[k] && (0 < k ==> bits[k].gap)
    ensures Print(bits) == GapOf(bits[0]) + Words(words)
  {
    if |bits| == 1 {
      assert Print(bits[1..]) == "";
    } else {
      PrintWords(bits[1..], words[1..]);
      assert words[0] + " " + Words(words[1..]) == words[0] + (" " + Words(words[1..]));
    }
  }

  lemma {:induction false} Flat(a: string, b: string, c: string, d: string)
    ensures (a + b) + (c + d) == a + b + c + d && a + (b + (c + d)) == a + b + c + d
  {
  }

  lemma {:induction false} PrintClass(q: string, c: string)
    ensures Print(ClassBits(q, c)) == " " + q + "." + c
  {
    hide Print;
    var x, y := Id(q), Bit(false, Shape(IDENTIFIER, c));
    assert ClassBits(q, c) == [x] + ([Glued(DOT)] + [y]);
    PrintConcat([x], [Glued(DOT)] + [y]);
    PrintConcat([Glued(DOT)], [y]);
    PrintOne(x);
    PrintOne(Glued(DOT));
    PrintOne(y);
    Flat(" ", q, ".", c);
  }

  lemma {:induction false} MoreTexts(args: seq<Shape>)
    requires args != []
    ensures C.Join(TextsIn(args), ", ") == args[0].text
      + (if |args| == 1 then "" else ", " + C.Join(TextsIn(args[1..]), ", "))
  {
    var texts := TextsIn(args);
    assert texts[1..] == TextsIn(args[1..]);
  }

  lemma {:induction false} CommaAhead(args: seq<Shape>)
    ensures Print(MoreArgBits(args)) == if args == [] then "" else "," + Print(ArgBits(args))
  {
    hide Print;
    PrintNone();
    if args != [] {
      assert MoreArgBits(args) == [Glued(COMMA)] + ArgBits(args);
      PrintConcat([Glued(COMMA)], ArgBits(args));
      PrintOne(Glued(COMMA));
    }
  }

  lemma {:induction false} PrintArgs(args: seq<Shape>)
    ensures Print(ArgBits(args)) == Listed(TextsIn(args))
  {
    hide Print, C.Join, TextsIn, MoreArgBits;
    PrintNone();
    if args != [] {
      var rest, x := args[1..], Bit(true, args[0]);
      PrintOne(x);
      PrintConcat([x], MoreArgBits(rest));
      CommaAhead(rest);
      PrintArgs(rest);
      MoreTexts(args);
      Flat(" ", args[0].text, ",", " " + C.Join(TextsIn(rest), ", "));
      Flat(" ", args[0].text, ", ", C.Join(TextsIn(rest), ", "));
      assert "," + " " == ", ";
    }
  }

  lemma {:induction false} PrintSetting(f: (string, string), gap: bool)
    ensures Print([Bit(gap, Shape(IDENTIFIER, f.0)), Spc(EQ), Bit(true, Shape(INT, f.1))])
      == (if gap then " " else "") + (f.0 + " = " + f.1)
  {
    hide Print, Words;
    PrintWords([Bit(gap, Shape(IDENTIFIER, f.0)), Spc(EQ), Bit(true, Shape(INT, f.1))], [f.0, "=", f.1]);
    SettingIs(f);
  }

  lemma {:induction false} MoreSettings(fields: seq<(string, string)>)
    requires 1 < |fields|
    ensures C.Join(Settings(fields), ", ") == fields[0].0 + " = " + fields[0].1
      + (", " + C.Join(Settings(fields[1..]), ", "))
  {
    var texts := Settings(fields);
    assert texts[1..] == Settings(fields[1..]);
  }

  lemma {:induction false} OneSetting(f: (string, string), first: bool)
    ensures C.Join(Settings([f]), ", ") == f.0 + " = " + f.1
    ensures FieldBits([f], first) == (if first then [] else [Glued(COMMA)])
      + [Bit(!first, Shape(IDENTIFIER, f.0)), Spc(EQ), Bit(true, Shape(INT, f.1))]
  {
    assert [f][1..] == [];
  }

  lemma {:induction false} PrintFields(fields: seq<(string, string)>, first: bool)
    requires fields != []
    ensures Print(FieldBits(fields, first)) == (if first then "" else ", ") + C.Join(Settings(fields), ", ")
  {
    hide Print, C.Join, Settings, Fixed;
    var f, rest := fields[0], fields[1..];
    var lead: seq<Bit> := if first then [] else [Glued(COMMA)];
    var pair := [Bit(!first, Shape(IDENTIFIER, f.0)), Spc(EQ), Bit(true, Shape(INT, f.1))];
    PrintSetting(f, !first);
    LeadIs(first);
    PrintConcat(lead, pair);
    if rest == [] {
      assert fields == [f];
      OneSetting(f, first);
    } else {
      PrintConcat(lead + pair, FieldBits(rest, false));
      PrintFields(rest, false);
      MoreSettings(fields);
    }
  }

  lemma {:induction false} LeadIs(first: bool)
    ensures Print(if first then [] else [Glued(COMMA)]) == if first then "" else ","
  {
    PrintOne(Glued(COMMA));
  }

  lemma {:induction false} SettingIs(f: (string, string))
    ensures Words([f.0, "=", f.1]) == f.0 + " = " + f.1
  {
    assert C.Join(["=", f.1], " ") == "= " + f.1;
    assert [f.0, "=", f.1][1..] == ["=", f.1];
  }

  lemma {:induction false} WithClass(head: seq<Bit>, words: seq<string>, q: string, c: string, args: seq<Shape>)
    requires head != [] && |head| == |words| && !head[0].gap
    requires forall k :: 0 <= k < |head| ==> head[k].shape.text == words[k] && (0 < k ==> head[k].gap)
    ensures Print(head + ClassBits(q, c) + ArgBits(args)) == Words(words) + Class(q, c, args)
  {
    hide Print, Words, ClassBits, ArgBits, Listed, TextsIn;
    PrintWords(head, words);
    PrintClass(q, c);
    PrintArgs(args);
    PrintConcat(head + ClassBits(q, c), ArgBits(args));
    PrintConcat(head, ClassBits(q, c));
  }

  lemma {:induction false} HeadOfCut(delimiter: Option<string>, src: string)
    ensures Print(CutHead(delimiter, src))
      == Words(["cut"] + (if delimiter.Some? then ["with", delimiter.value] else []) + [src, "set", "("])
  {
    hide Print, Words;
    var with := if delimiter.Some? then ["with", delimiter.value] else [];
    PrintWords(CutHead(delimiter, src), ["cut"] + with + [src, "set", "("]);
  }

  lemma {:induction false} TextOfSource(id: string, q: string, c: string, args: seq<Shape>)
    ensures Text(Source(id, q, c, args)) == Written(Source(id, q, c, args))
  {
    hide Print, Words, ClassBits, ArgBits, Class;
    WithClass([Glued(SOURCE), Spc(AS), Id(id)], ["source", "as", id], q, c, args);
  }

  lemma {:induction false} TextOfSink(src: string, q: string, c: string, args: seq<Shape>)
    ensures Text(Sink(src, q, c, args)) == Written(Sink(src, q, c, args))
  {
    hide Print, Words, ClassBits, ArgBits, Class;
    WithClass([Glued(SINK), Id(src), Spc(TO)], ["sink", src, "to"], q, c, args);
  }

  lemma {:induction false} TextOfAsync(src: string, id: string, q: string, c: string, args: seq<Shape>)
    ensures Text(AsyncSink(src, id, q, c, args)) == Written(AsyncSink(src, id, q, c, args))
  {
    hide Print, Words, ClassBits, ArgBits, Class;
    WithClass([Glued(SINK), Id(src), Spc(ASYNC), Spc(AS), Id(id), Spc(TO)],
              ["sink", src, "async", "as", id, "to"], q, c, args);
  }

  lemma {:induction false} SixWords(x: TokenType, a: string, y: TokenType, b: string, z: TokenType, c: string)
    ensures Print([Glued(x), Id(a), Spc(y), Id(b), Spc(z), Id(c)]) == Words([Word(x), a, Word(y), b, Word(z), c])
  {
    hide Print, Words, Word;
    PrintWords([Glued(x), Id(a), Spc(y), Id(b), Spc(z), Id(c)], [Word(x), a, Word(y), b, Word(z), c]);
  }

  lemma {:induction false} TextOfMerge(a: string, b: string, id: string)
    ensures Text(Merge(a, b, id)) == Written(Merge(a, b, id))
  {
    hide Print, Words;
    SixWords(MERGE, a, AND, b, AS, id);
  }

  lemma {:induction false} TextOfSplit(src: string, a: string, b: string)
    ensures Text(Dupe(src, a, b)) == Written(Dupe(src, a, b)) && Text(Fanout(src, a, b)) == Written(Fanout(src, a, b))
  {
    hide Print, Words;
    SixWords(DUPE, src, AS, a, AND, b);
    SixWords(FANOUT, src, AS, a, AND, b);
  }

  lemma {:induction false} FourWords(x: TokenType, a: string, y: TokenType, b: Bit)
    requires b.gap
    ensures Print([Glued(x), Id(a), Spc(y), b]) == Words([Word(x), a, Word(y), b.shape.text])
  {
    hide Print, Words, Word;
    PrintWords([Glued(x), Id(a), Spc(y), b], [Word(x), a, Word(y), b.shape.text]);
  }

  lemma {:induction false} TextOfAppend(src: string, target: string)
    ensures Text(Append(src, target)) == Written(Append(src, target))
  {
    hide Print, Words;
    FourWords(APPEND, src, TO, Id(target));
  }

  lemma {:induction false} TextOfTag(src: string, tag: string)
    ensures Text(Tag(src, tag)) == Written(Tag(src, tag))
  {
    hide Print, Words;
    FourWords(TAG, src, WITH, Bit(true, Shape(STRING, tag)));
  }

  lemma {:induction false} TextOfCut(delimiter: Option<string>, src: string, fields: seq<(string, string)>)
    requires fields != []
    ensures Text(Cut(delimiter, src, fields)) == Written(Cut(delimiter, src, fields))
  {
    hide Print, Words, CutHead, FieldBits, Settings, C.Join;
    HeadOfCut(delimiter, src);
    PrintFields(fields, true);
    PrintConcat(CutHead(delimiter, src) + FieldBits(fields, true), [Glued(RPAR)]);
    PrintConcat(CutHead(delimiter, src), FieldBits(fields, true));
    PrintOne(Glued(RPAR));
  }

  lemma {:induction false} HeadOfJoin(src: string)
    ensures Print([Glued(JOIN), Id(src), Spc(WITH)]) == Words(["join", src, "with"])
  {
    hide Print, Words;
    PrintWords([Glued(JOIN), Id(src), Spc(WITH)], ["join", src, "with"]);
  }

  lemma {:induction false} TextOfJoin(src: string, patterns: seq<string>)
    ensures Text(Join(src, patterns)) == Written(Join(src, patterns))
  {
    hide Print, Words, ArgBits, StringShapes, Listed;
    var head := [Glued(JOIN), Id(src), Spc(WITH)];
    HeadOfJoin(src);
    PrintArgs(StringShapes(patterns));
    PrintConcat(head, ArgBits(StringShapes(patterns)));
    TextsOfStrings(patterns);
  }

  /** The canonical text of a statement is written like that. */
  lemma {:induction false} TextIs(s: Stmt)
    requires s.Cut? ==> s.fields != []
    ensures Text(s) == Written(s)
  {
    hide Text, Written;
    match s
    case Blank => BlankText();
    case Cut(delimiter, src, fields) => TextOfCut(delimiter, src, fields);
    case Join(src, patterns) => TextOfJoin(src, patterns);
    case Source(id, q, c, args) => TextOfSource(id, q, c, args);
    case Sink(src, q, c, args) => TextOfSink(src, q, c, args);
    case AsyncSink(src, id, q, c, args) => TextOfAsync(src, id, q, c, args);
    case Append(src, target) => TextOfAppend(src, target);
    case Tag(src, tag) => TextOfTag(src, tag);
    case Merge(a, b, id) => TextOfMerge(a, b, id);
    case Dupe(src, a, b) => TextOfSplit(src, a, b);
    case Fanout(src, a, b) => TextOfSplit(src, a, b);
  }

  lemma {:induction false} BlankText()
    ensures Text(Blank) == Written(Blank)
  {
    PrintOne(Glued(EOL));
  }

  // ----- Tokens --------------------------------------------------------------------------------

  /** A quote that no backslash escapes: it stands behind an even number of them. */
  predicate IsOpenQuote(t: string, k: nat)
    requires k < |t|
  {
    t[k] == '"' && V.RunBefore(t, k) % 2 == 0
  }

  /** Where a string closes, told from the runes: at the first quote that is not escaped. Without one, the
      text ends in the string, behind a backslash that escapes nothing or not. */
  ghost predicate ClosesAt(t: string, c: Close) {
    match c
    case Closed(n) =>
      1 <= n <= |t| && IsOpenQuote(t, n - 1) && forall k :: 0 <= k < n - 1 ==> !IsOpenQuote(t, k)
    case Dangling => (forall k :: 0 <= k < |t| ==> !IsOpenQuote(t, k)) && V.RunBefore(t, |t|) % 2 == 1
    case Unterminated => (forall k :: 0 <= k < |t| ==> !IsOpenQuote(t, k)) && V.RunBefore(t, |t|) % 2 == 0
  }

  /** The runs of a text go on behind the rune or the escape that it starts with. */
  lemma {:induction false} RunShifts(t: string, d: nat, k: nat)
    requires d <= k <= |t|
    requires (d == 1 && t[0] != '\\') || (d == 2 && t[0] == '\\')
    ensures V.RunBefore(t, k) % 2 == V.RunBefore(t[d..], k - d) % 2
    ensures V.RunBefore(t, k) == V.RunBefore(t[d..], k - d) || V.RunBefore(t[d..], k - d) == k - d
  {
    if d < k {
      RunShifts(t, d, k - 1);
      assert t[d..][k - 1 - d] == t[k - 1];
    }
  }

  lemma {:induction false} ClosesBehind(t: string, d: nat, c: Close)
    requires d <= |t| && ClosesAt(t[d..], c)
    requires (d == 1 && t[0] != '\\' && t[0] != '"') || (d == 2 && t[0] == '\\')
    ensures ClosesAt(t, Later(d, c))
  {
    hide V.RunBefore;
    forall k | d <= k < |t|
      ensures IsOpenQuote(t, k) <==> IsOpenQuote(t[d..], k - d)
    {
      RunShifts(t, d, k);
      assert t[d..][k - d] == t[k];
    }
    HeadIsClosed(t, d);
    RunShifts(t, d, |t|);
  }

  lemma {:induction false} HeadIsClosed(t: string, d: nat)
    requires d <= |t|
    requires (d == 1 && t[0] != '\\' && t[0] != '"') || (d == 2 && t[0] == '\\')
    ensures forall k :: 0 <= k < d ==> !IsOpenQuote(t, k)
  {
    if d == 2 {
      assert V.RunBefore(t, 1) == 1 + V.RunBefore(t, 0);
    }
  }

  /** That is where the lexer closes it. */
  lemma {:induction false} StringCloses(t: string)
    ensures ClosesAt(t, CloseOf(t))
    decreases |t|
  {
    hide V.RunBefore;
    if t == "" || t[0] == '"' || t == "\\" {
      ShortCloses(t);
    } else {
      var d := if t[0] == '\\' then 2 else 1;
      StringCloses(t[d..]);
      ClosesBehind(t, d, CloseOf(t[d..]));
    }
  }

  lemma {:induction false} ShortCloses(t: string)
    requires t == "" || t[0] == '"' || t == "\\"
    ensures ClosesAt(t, CloseOf(t))
  {
    assert V.RunBefore(t, 0) == 0;
  }

  /** No other place fits. */
  lemma {:induction false} ClosesIff(t: string, c: Close)
    ensures ClosesAt(t, c) <==> c == CloseOf(t)
  {
    hide V.RunBefore, IsOpenQuote, CloseOf;
    StringCloses(t);
  }

  predicate AllDigits(s: string) { s != "" && forall k :: 0 <= k < |s| ==> '0' <= s[k] <= '9' }

  /** Digits, behind a minus or not. */
  predicate Signed(s: string) { AllDigits(s) || (s != "" && s[0] == '-' && AllDigits(s[1..])) }

  lemma {:induction false} DigitsIff(s: string)
    ensures AllDigits(s) <==> s != "" && Span(s, IsDigit) == |s|
  {
    SpanIsLongest(s, IsDigit, |s|);
  }

  /** An integer is digits behind a minus or not. */
  lemma {:induction false} IntIff(s: string)
    requires s != ""
    ensures IsInt(s) <==> Signed(s)
  {
    hide Span;
    if s[0] == '-' {
      DigitsIff(s[1..]);
    } else {
      DigitsIff(s);
      assert s[0..] == s;
    }
  }

  ghost predicate IsPointAt(s: string, k: nat) {
    k < |s| && s[k] == '.' && Signed(s[..k]) && AllDigits(s[k + 1..])
  }

  /** A decimal is an integer, a point, and digits. */
  lemma {:induction false} DecimalIff(s: string)
    requires s != ""
    ensures IsDecimal(s) <==> exists k: nat :: IsPointAt(s, k)
  {
    hide Span, Signed, AllDigits, IsInt;
    var (sign, whole) := WholePart(s);
    if IsDecimal(s) {
      WholeOfPrefix(s, whole);
      IntIff(s[..whole]);
      assert IsInt(s[..whole]) by { IntUpTo(s, whole); }
      DigitsIff(s[whole + 1..]);
      assert IsPointAt(s, whole);
    }
    if k: nat :| IsPointAt(s, k) {
      SignedIsNotEmpty(s[..k]);
      IntIff(s[..k]);
      PointBehind(s, k);
      DigitsIff(s[k + 1..]);
    }
  }

  lemma {:induction false} SignedIsNotEmpty(s: string)
    requires Signed(s)
    ensures s != ""
  {
  }

  lemma {:induction false} IntUpTo(s: string, whole: nat)
    requires s != "" && WholePart(s).0 < WholePart(s).1 == whole
    ensures IsInt(s[..whole])
  {
    hide Span;
    WholeOfPrefix(s, whole);
  }

  lemma {:induction false} PointBehind(s: string, k: nat)
    requires 0 < k < |s| && s[k] == '.' && IsInt(s[..k])
    ensures WholePart(s) == WholePart(s[..k]) && WholePart(s).0 < k == WholePart(s).1
  {
    hide Span;
    WholePrinted(s[..k], s[k..]);
    assert s[..k] + s[k..] == s;
  }

  predicate IsLetter(c: char) { 'a' <= c <= 'z' || 'A' <= c <= 'Z' }

  /** An identifier starts with a letter or an at sign and goes on with letters, digits and underscores. */
  lemma {:induction false} IdentifierIff(s: string)
    requires s != ""
    ensures IsIdentifier(s) <==>
      && (IsLetter(s[0]) || s[0] == '@')
      && forall k :: 1 <= k < |s| ==> IsLetter(s[k]) || '0' <= s[k] <= '9' || s[k] == '_'
  {
    hide Span;
    SpanIsLongest(s[1..], IsIdRest, |s| - 1);
    assert forall k :: 1 <= k < |s| ==> s[k] == s[1..][k - 1];
    assert forall k :: 0 <= k < |s| - 1 ==> s[1..][k] == s[k + 1];
  }

  // ----- What error tokens say -----------------------------------------------------------------

  lemma {:induction false} NothingToSkip(t: string)
    requires t != "" && !IsBlank(t[0])
    ensures Skip(t) == t
  {
  }

  /** A string that is not closed is quoted, up to the end of the text. */
  lemma {:induction false} UnterminatedSays(t: string, line: nat, cap: nat)
    requires t != "" && |t| + 1 <= cap && '"' !in t && '\\' !in t
    ensures LexFrom("\"" + t, line, cap) == [Token(ERR, "EOF: unterminated string: '\"" + t + "'", line)]
  {
    hide LexFrom, Skip, CloseOf, V.RunBefore;
    var s := "\"" + t;
    NeverCloses(t);
    assert s[1..] == t && s[0..] == s;
    NothingToSkip(s);
    RunStops(s, line, cap);
    assert "EOF: unterminated string" + ": '" + s + "'" == "EOF: unterminated string: '\"" + t + "'";
  }

  lemma {:induction false} NeverCloses(t: string)
    requires '"' !in t && '\\' !in t
    ensures CloseOf(t) == Unterminated
  {
    if t != "" {
      assert t[0] in t;
      NeverCloses(t[1..]);
    }
  }

  /** A minus without a digit behind it. */
  lemma {:induction false} NoDigitSays(t: string, line: nat, cap: nat)
    requires 2 <= cap && (t != "" ==> !('0' <= t[0] <= '9'))
    ensures LexFrom("-" + t, line, cap) == [Token(ERR, "invalid number: no digit found: '-'", line)]
  {
    hide LexFrom, Skip;
    var s := "-" + t;
    assert s[1..] == t && s[..1] == "-" == s[0..1];
    NothingToSkip(s);
    RunStops(s, line, cap);
    assert ErrorText(InvalidNumber, "-") == "invalid number: no digit found: '-'";
  }

  lemma {:induction false} NoFractionScan(s: string, t: string, cap: nat)
    requires s != "" && IsInt(s) && |s| + 2 <= cap && (t != "" ==> !IsDigit(t[0]))
    ensures ScanNumber(s + ("." + t), cap) == Bad(ErrorText(NoDigitAfterDecimal, s + "."))
  {
    hide Span, ErrorText;
    var all := s + ("." + t);
    assert all[|s|] == '.' && all[|s| + 1..] == t && all[0..|s| + 1] == s + ".";
    WholePrinted(s, "." + t);
    NoDigitAhead(t);
  }

  /** An integer and a point without a digit behind them. */
  lemma {:induction false} NoFractionSays(s: string, t: string, line: nat, cap: nat)
    requires Signed(s) && |s| + 2 <= cap && (t != "" ==> !('0' <= t[0] <= '9'))
    ensures LexFrom(s + ("." + t), line, cap)
         == [Token(ERR, "missing digit(s) after decimal: '" + s + ".'", line)]
  {
    hide LexFrom, Skip, Span, Signed, ScanNumber, IsInt;
    SignedIsNotEmpty(s);
    IntIff(s);
    FirstOfInt(s);
    var all := s + ("." + t);
    NoFractionScan(s, t, cap);
    NothingToSkip(all);
    RunStops(all, line, cap);
    assert "missing digit(s) after decimal" + ": '" + (s + ".") + "'"
      == "missing digit(s) after decimal: '" + s + ".'";
  }

  lemma {:induction false} FirstOfInt(s: string)
    requires s != "" && IsInt(s)
    ensures s[0] == '-' || IsDigit(s[0])
  {
    FirstRune(Shape(INT, s));
  }

  lemma {:induction false} NoDigitAhead(t: string)
    requires t != "" ==> !IsDigit(t[0])
    ensures Span(t, IsDigit) == 0
  {
  }

  /** A chunk that starts with no letter, digit, or mark that the language knows. */
  lemma {:induction false} UnknownSays(w: string, line: nat, cap: nat)
    requires w != "" && |w| <= cap && forall k :: 0 <= k < |w| ==> IsWordRune(w[k])
    requires !IsLetter(w[0]) && !('0' <= w[0] <= '9') && w[0] !in "@-\"=,"
    ensures LexFrom(w, line, cap) == [Token(ERR, "unknown token: " + w + ": ''", line)]
  {
    hide LexFrom, Skip, KeywordType, Span;
    SpanIsLongest(w, IsWordRune, |w|);
    NoKeyword(w, 0);
    assert w[0..|w|] == w;
    NothingToSkip(w);
    RunStops(w, line, cap);
    assert "unknown token: " + w + ": '" + "" + "'" == "unknown token: " + w + ": ''";
  }

  /** White space other than the newline. */
  predicate Separates(c: char) {
    || c == '\t' || c == '\U{B}' || c == '\U{C}' || c == '\r' || c == ' ' || c == '\U{85}' || c == '\U{A0}'
    || c == '\U{1680}' || '\U{2000}' <= c <= '\U{200A}' || c == '\U{2028}' || c == '\U{2029}'
    || c == '\U{202F}' || c == '\U{205F}' || c == '\U{3000}'
  }

  lemma {:induction false} StopsInEscape(t: string, cap: nat)
    requires t != "" && 1 <= cap && !ScanAt(t, cap).Tok?
    ensures ScanAt(t, cap).Stop? <==> t[0] == '"' && CloseOf(t[1..]) == Dangling
    ensures ScanAt(t, cap).Bad? ==> !(t[0] == '"' && CloseOf(t[1..]) == Dangling)
  {
    hide CloseOf, Span, ErrorText, KeywordType;
  }

  lemma {:induction false} GoesOn(t: string, cap: nat)
    requires t != "" && 1 <= cap && ScanAt(t, cap).Tok?
    ensures !(t[0] == '"' && CloseOf(t[1..]) == Dangling)
    ensures ScanAt(t, cap).typ != EOF
  {
    hide CloseOf, Span, ErrorText, KeywordType;
  }

  /** Nothing but the end is posted exactly for texts of runes that separate tokens, and for those that go on
      behind them with a string that ends in the middle of an escape. */
  lemma {:induction false} NothingPostedIff(t: string, line: nat, cap: nat)
    requires 1 <= cap
    ensures LexFrom(t, line, cap) == [Token(EOF, "", line)] <==>
      || (forall k :: 0 <= k < |t| ==> Separates(t[k]))
      || (Skip(t) != "" && Skip(t)[0] == '"' && CloseOf(Skip(t)[1..]) == Dangling)
  {
    hide LexFrom, CloseOf, Span, ErrorText, Skip, ScanAt, Separates;
    OnlySeparators(t);
    var rest := Skip(t);
    if rest == "" {
      RunStops(t, line, cap);
    } else if !ScanAt(rest, cap).Tok? {
      RunStops(t, line, cap);
      StopsInEscape(rest, cap);
    } else {
      RunStep(t, line, cap);
      GoesOn(rest, cap);
    }
  }

  lemma {:induction false} OnlySeparators(t: string)
    ensures Skip(t) == "" <==> forall k :: 0 <= k < |t| ==> Separates(t[k])
  {
    SpanIsLongest(t, IsBlank, |t|);
    assert forall c :: IsBlank(c) <==> Separates(c);
  }
}
