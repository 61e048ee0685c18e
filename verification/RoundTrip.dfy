/** Canonical texts: lexing and parsing the text of a statement again gives the statement back. */
module RoundTrip {
  import opened Options
  import opened Runes
  import opened Tokens
  import opened LexSpec
  import opened LexTheorems
  import opened LexPrint
  import opened Syntax
  import opened ParseSpec
  import opened Grammar
  import opened Decode

  // ----- What the lexer posts is ready for the parser ------------------------------------------

  lemma {:induction false} ScanIsSpelled(t: string, cap: nat)
    requires t != "" && 1 <= cap && ScanAt(t, cap).Tok?
    ensures
      var r := ScanAt(t, cap);
      Spelled(Shape(r.typ, t[r.from..r.to])) && !r.typ.EOF? && !r.typ.ERR?
  {
    hide Span, CloseOf, ErrorText, KeywordType, Word;
    var r := ScanAt(t, cap);
    if PunctuationType(t[0]) != ERR {
      assert t[0..1] == [t[0]];
      PunctuationWord(t[0]);
    } else if t[0] != '"' && t[0] != '-' && !IsDigit(t[0]) && r.typ != IDENTIFIER {
      KeywordSpelling(t[r.from..r.to]);
    }
  }

  lemma {:induction false} PunctuationWord(c: char)
    requires PunctuationType(c) != ERR
    ensures Word(PunctuationType(c)) == [c]
  {
  }

  lemma {:induction false} KeywordSpelling(s: string)
    requires KeywordType(s) != IDENTIFIER
    ensures Word(KeywordType(s)) == s
  {
  }

  /** The tokens of any text are what the parser expects. */
  lemma {:induction false} LexIsReady(t: string, line: nat, cap: nat)
    requires 1 <= cap
    ensures Ready(Shapes(LexFrom(t, line, cap)))
    decreases |t|
  {
    hide Skip, ScanAt, LexFrom, LexAt, Spelled, Span;
    var rest := Skip(t);
    if rest == "" || !ScanAt(rest, cap).Tok? {
      RunStops(t, line, cap);
      LastIsReady(LexFrom(t, line, cap)[0]);
    } else {
      var r := ScanAt(rest, cap);
      RunStep(t, line, cap);
      ScanIsSpelled(rest, cap);
      LexIsReady(rest[r.to..], NextLine(line, r.typ), cap);
      var x := Token(r.typ, rest[r.from..r.to], line);
      var ts := LexFrom(rest[r.to..], NextLine(line, r.typ), cap);
      ShapesCons(x, ts);
      ReadyCons(ShapeOf(x), Shapes(ts));
    }
  }

  lemma {:induction false} LastIsReady(t: Token)
    requires t.typ == ERR || (t.typ == EOF && t.text == "")
    ensures Ready(Shapes([t]))
  {
  }

  lemma {:induction false} ReadyCons(x: Shape, xs: seq<Shape>)
    requires Ready(xs) && Spelled(x) && !x.typ.EOF? && !x.typ.ERR?
    ensures Ready([x] + xs)
  {
  }

  // ----- Printed tokens that keep apart --------------------------------------------------------

  /** Two neighbours in a canonical text. */
  predicate Joint(x: Bit, y: Bit) {
    || y.gap
    || x.shape.typ.DOT? || x.shape.typ.LPAR? || x.shape.typ.EOL? || y.shape.typ.EOL?
    || (y.shape.typ.COMMA? && IsArg(x.shape.typ))
    || (y.shape.typ.RPAR? && x.shape.typ.INT?)
    || (y.shape.typ.DOT? && x.shape.typ.IDENTIFIER?)
  }

  predicate AllJoint(bits: seq<Bit>) {
    forall k :: 0 <= k < |bits| - 1 ==> Joint(bits[k], bits[k + 1])
  }

  /** Every identifier that spells a keyword stands directly in front of a comma. */
  predicate CommaSafe(bits: seq<Bit>) {
    forall k :: 0 <= k < |bits| && SpellsKeyword(bits[k].shape) ==>
      k + 1 < |bits| && !bits[k + 1].gap && bits[k + 1].shape.typ.COMMA?
  }

  /** A comma stands directly behind the first token. */
  predicate CommaNext(bits: seq<Bit>) {
    1 < |bits| && !bits[1].gap && bits[1].shape.typ.COMMA?
  }

  predicate HeadSafe(bits: seq<Bit>)
    requires bits != []
  {
    SpellsKeyword(bits[0].shape) ==> CommaNext(bits)
  }

  lemma {:induction false} CommaSafeParts(bits: seq<Bit>)
    requires bits != []
    ensures CommaSafe(bits) <==> HeadSafe(bits) && CommaSafe(bits[1..])
  {
  }

  /** The rune behind the first token. */
  lemma {:induction false} NextRune(bits: seq<Bit>)
    requires bits != [] && AllWellFormed(bits)
    ensures
      var next := Print(bits[1..]);
      if |bits| == 1 then next == ""
      else next != "" && next[0] == if bits[1].gap then ' ' else bits[1].shape.text[0]
  {
  }

  lemma {:induction false} PunctuationRune(x: Shape)
    requires WellFormed(x)
    ensures x.typ.COMMA? ==> x.text == ","
    ensures x.typ.RPAR? ==> x.text == ")"
    ensures x.typ.DOT? ==> x.text == "."
    ensures x.typ.EOL? ==> x.text == "\n"
  {
  }

  lemma {:induction false} HeadKeepsApart(bits: seq<Bit>)
    requires bits != [] && AllWellFormed(bits) && AllJoint(bits)
    ensures
      var x := bits[0].shape;
      var next := Print(bits[1..]);
      && Ends(x, next)
      && (Relexed(x, next) == x.typ <==> HeadSafe(bits))
      && (IsWord(x.typ) ==> Span(next, IsWordRune) <= if CommaNext(bits) then 1 else 0)
  {
    hide WellFormed, KeywordType;
    var x := bits[0].shape;
    NextRune(bits);
    WordIsNoLiteral(x);
    if 1 < |bits| {
      PunctuationRune(bits[1].shape);
      if bits[1].shape.typ.COMMA? && !bits[1].gap {
        CommaThenGap(bits);
      }
    }
  }

  lemma {:induction false} WordIsNoLiteral(x: Shape)
    requires WellFormed(x)
    ensures KeywordType(x.text) == x.typ ==> IsWord(x.typ)
    ensures IsWord(x.typ) && !x.typ.IDENTIFIER? ==> KeywordType(x.text) == x.typ
    ensures x.typ.LPAR? || x.typ.DOT? || x.typ.EOL? ==> KeywordType(x.text) != x.typ
  {
  }

  lemma {:induction false} CommaThenGap(bits: seq<Bit>)
    requires 1 < |bits| && AllWellFormed(bits) && AllJoint(bits)
    requires bits[1].shape.typ.COMMA? && !bits[1].gap
    ensures Span(Print(bits[1..]), IsWordRune) <= 1
  {
  }

  /** Tidy bits are separated, and lexing their print keeps all types exactly if they are comma-safe. */
  lemma {:induction false} TidyBits(bits: seq<Bit>)
    requires AllWellFormed(bits) && AllJoint(bits)
    ensures Separated(bits)
    ensures Relex(bits) == BitShapes(bits) <==> CommaSafe(bits)
  {
    hide WellFormed, Joint, SpellsKeyword, Ends, Relexed, Span, HeadSafe, CommaSafe, IsWord;
    if bits == [] {
      NothingIsSafe();
    } else {
      var rest := bits[1..];
      assert AllWellFormed(rest);
      AllJointTail(bits);
      TidyBits(rest);
      HeadKeepsApart(bits);
      CommaSafeParts(bits);
      assert BitShapes(bits)[1..] == BitShapes(rest);
      assert Relex(bits)[1..] == Relex(rest);
      SameHeadAndTail(Relex(bits), BitShapes(bits));
    }
  }

  /** Tidy bits fit into the window if every token leaves one rune of it free, and a word that stands
      directly in front of a comma two. */
  lemma {:induction false} TidyBitsFit(bits: seq<Bit>, cap: nat)
    requires 1 <= cap && AllWellFormed(bits) && AllJoint(bits)
    requires forall k :: 0 <= k < |bits| ==>
      |bits[k].shape.text| + (if IsWord(bits[k].shape.typ) && CommaNext(bits[k..]) then 2 else 1) <= cap
    ensures Fits(Print(bits), cap)
  {
    hide AllWellFormed, AllJoint, Separated, Roomy, Fits, Print;
    TidyBits(bits);
    TidyIsRoomy(bits, cap);
    PrintFits(bits, cap);
  }

  lemma {:induction false} TidyIsRoomy(bits: seq<Bit>, cap: nat)
    requires AllWellFormed(bits) && AllJoint(bits)
    requires forall k :: 0 <= k < |bits| ==>
      |bits[k].shape.text| + (if IsWord(bits[k].shape.typ) && CommaNext(bits[k..]) then 2 else 1) <= cap
    ensures Roomy(bits, cap)
  {
    hide WellFormed, Joint, CommaNext, Span, IsWord, Print;
    if bits != [] {
      HeadKeepsApart(bits);
      AllJointTail(bits);
      assert bits[0..] == bits;
      forall k | 0 <= k < |bits[1..]|
        ensures bits[1..][k..] == bits[1 + k..] && bits[1..][k] == bits[1 + k]
      {
      }
      TidyIsRoomy(bits[1..], cap);
    }
  }

  lemma {:induction false} AllJointTail(bits: seq<Bit>)
    requires bits != [] && AllJoint(bits)
    ensures AllJoint(bits[1..])
  {
  }

  lemma {:induction false} NothingIsSafe()
    ensures CommaSafe([]) && BitShapes([]) == []
  {
  }

  // ----- Canonical texts -----------------------------------------------------------------------

  /** The lines of a script, each written in its canonical form. */
  function LinesBits(lines: seq<Line>): seq<Bit> {
    if lines == [] then [] else LineBits(lines[0]) + LinesBits(lines[1..])
  }

  function LineBits(l: Line): seq<Bit> {
    if l.stmt.Blank? || l.last then Bits(l.stmt) else Bits(l.stmt) + [Glued(EOL)]
  }

  /** Lines without a comma behind their last argument. */
  predicate NoTrailing(lines: seq<Line>) {
    forall k :: 0 <= k < |lines| ==> !lines[k].trailing
  }

  lemma {:induction false} ConcatShapes(a: seq<Bit>, b: seq<Bit>)
    ensures BitShapes(a + b) == BitShapes(a) + BitShapes(b)
  {
  }

  lemma {:induction false} MoreArgsShapes(args: seq<Shape>, rest: Input)
    ensures ArgsThen(args, true, rest) == BitShapes(MoreArgBits(args)) + rest
  {
    hide Word;
    if args == [] {
      assert BitShapes([]) + rest == rest;
    } else {
      MoreArgsShapes(args[1..], rest);
      var head := [Glued(COMMA), Bit(true, args[0])];
      ConcatShapes(head, MoreArgBits(args[1..]));
      assert BitShapes(head) == [Fixed(COMMA), args[0]];
    }
  }

  lemma {:induction false} ArgsShapes(args: seq<Shape>, rest: Input)
    ensures ArgsThen(args, false, rest) == BitShapes(ArgBits(args)) + rest
  {
    if args == [] {
      assert BitShapes([]) + rest == rest;
    } else {
      hide MoreArgBits;
      MoreArgsShapes(args[1..], rest);
      ConcatShapes([Bit(true, args[0])], MoreArgBits(args[1..]));
      assert BitShapes([Bit(true, args[0])]) == [args[0]];
      assert ArgsThen(args, false, rest) == [args[0]] + ArgsThen(args[1..], true, rest);
    }
  }

  lemma {:induction false} FieldShapes(first: bool, id: string, num: string, behind: seq<Bit>, rest: Input)
    ensures BitShapes([Bit(!first, Shape(IDENTIFIER, id)), Spc(EQ), Bit(true, Shape(INT, num))] + behind) + rest
         == Ident(id, Kw(EQ, One(INT, num, BitShapes(behind) + rest)))
  {
  }

  lemma {:induction false} CommaShapes(behind: seq<Bit>, rest: Input)
    ensures BitShapes([Glued(COMMA)] + behind) + rest == Kw(COMMA, BitShapes(behind) + rest)
  {
  }

  lemma {:induction false} FieldsShapes(fields: seq<(string, string)>, first: bool, rest: Input)
    requires fields != []
    ensures
      var xs := BitShapes(FieldBits(fields, first)) + rest;
      xs == if first then FieldsThen(fields, rest) else Kw(COMMA, FieldsThen(fields, rest))
  {
    hide Word, BitShapes, Kw, Ident, One, Glued, Spc;
    var (id, num) := fields[0];
    var more := FieldBits(fields[1..], false);
    var field := [Bit(!first, Shape(IDENTIFIER, id)), Spc(EQ), Bit(true, Shape(INT, num))] + more;
    FieldShapes(first, id, num, more, rest);
    if 1 < |fields| {
      FieldsShapes(fields[1..], false, rest);
    } else {
      NoShapes(rest);
    }
    if first {
      assert FieldBits(fields, first) == field;
    } else {
      assert FieldBits(fields, first) == [Glued(COMMA)] + field;
      CommaShapes(field, rest);
    }
  }

  lemma {:induction false} NoShapes(rest: Input)
    ensures BitShapes([]) + rest == rest
  {
  }

  lemma {:induction false} PatternsShapes(patterns: seq<string>, rest: Input)
    requires patterns != []
    ensures PatternsThen(patterns, rest) == ArgsThen(StringShapes(patterns), false, rest)
    ensures Kw(COMMA, PatternsThen(patterns, rest)) == ArgsThen(StringShapes(patterns), true, rest)
  {
    hide Word;
    if 1 < |patterns| {
      PatternsShapes(patterns[1..], rest);
    }
  }

  lemma {:induction false} CallShapes(head: seq<Bit>, q: string, c: string, args: seq<Shape>, rest: Input)
    ensures BitShapes(head + ClassBits(q, c) + ArgBits(args)) + rest
         == BitShapes(head) + ClassThen(q, c, ArgsThen(args, false, rest))
  {
    hide Word;
    ConcatShapes(head, ClassBits(q, c));
    ConcatShapes(head + ClassBits(q, c), ArgBits(args));
    ArgsShapes(args, rest);
    hide ArgsThen, ArgBits;
  }

  lemma {:induction false} CutHeadShapes(delimiter: Option<string>, src: string, rest: Input)
    ensures BitShapes(CutHead(delimiter, src)) + rest
         == Kw(CUT, DelimiterThen(delimiter, Ident(src, Kw(SET, Kw(LPAR, rest)))))
  {
  }

  lemma {:induction false} CutShapes(s: Stmt, rest: Input)
    requires s.Cut? && s.fields != []
    ensures StmtThen(s, rest) == BitShapes(Bits(s)) + rest
  {
    hide Word, FieldsThen, FieldBits, CutHead, BitShapes, DelimiterThen;
    var Cut(delimiter, src, fields) := s;
    var head, list, close := CutHead(delimiter, src), FieldBits(fields, true), [Glued(RPAR)];
    ConcatShapes(head, list);
    ConcatShapes(head + list, close);
    RparShapes(rest);
    FieldsShapes(fields, true, Kw(RPAR, rest));
    CutHeadShapes(delimiter, src, FieldsThen(fields, Kw(RPAR, rest)));
    assert BitShapes(head) + BitShapes(list) + BitShapes(close) + rest
        == BitShapes(head) + (BitShapes(list) + (BitShapes(close) + rest));
  }

  lemma {:induction false} RparShapes(rest: Input)
    ensures BitShapes([Glued(RPAR)]) + rest == Kw(RPAR, rest)
  {
  }

  /** The productions of the grammar derive the tokens of the canonical text. */
  lemma {:induction false} StmtShapes(s: Stmt, rest: Input)
    requires !s.Blank? && (s.Cut? ==> s.fields != []) && (s.Join? ==> s.patterns != [])
    ensures StmtThen(s, rest) == BitShapes(Bits(s)) + rest
  {
    hide Bits, StmtThen, BitShapes;
    match s
    case Merge(_, _, _) => MergeShapes(s, rest);
    case Dupe(_, _, _) => DupeShapes(s, rest);
    case Fanout(_, _, _) => FanoutShapes(s, rest);
    case Append(_, _) => AppendShapes(s, rest);
    case Tag(_, _) => TagShapes(s, rest);
    case Cut(_, _, _) => CutShapes(s, rest);
    case Join(_, _) => JoinShapes(s, rest);
    case Source(_, _, _, _) => SourceShapes(s, rest);
    case Sink(_, _, _, _) => SinkShapes(s, rest);
    case AsyncSink(_, _, _, _, _) => AsyncSinkShapes(s, rest);
  }

  lemma {:induction false} SixShapes(x: TokenType, a: string, y: TokenType, b: string, z: TokenType, c: string,
                                     rest: Input)
    ensures BitShapes([Glued(x), Id(a), Spc(y), Id(b), Spc(z), Id(c)]) + rest
         == Kw(x, Ident(a, Kw(y, Ident(b, Kw(z, Ident(c, rest))))))
  {
    hide Word;
    ThreeShapes(Glued(x), Id(a), Spc(y), [Id(b), Spc(z), Id(c)]);
    assert [Glued(x), Id(a), Spc(y)] + [Id(b), Spc(z), Id(c)] == [Glued(x), Id(a), Spc(y), Id(b), Spc(z), Id(c)];
    ThreeShapes(Id(b), Spc(z), Id(c), []);
    assert [Id(b), Spc(z), Id(c)] + [] == [Id(b), Spc(z), Id(c)];
    assert BitShapes([]) == [];
  }

  lemma {:induction false} ThreeShapes(x: Bit, y: Bit, z: Bit, more: seq<Bit>)
    ensures BitShapes([x, y, z] + more) == [x.shape, y.shape, z.shape] + BitShapes(more)
  {
  }

  lemma {:induction false} MergeShapes(s: Stmt, rest: Input)
    requires s.Merge?
    ensures StmtThen(s, rest) == BitShapes(Bits(s)) + rest
  {
    hide Word, Kw, Ident, BitShapes;
    SixShapes(MERGE, s.srcA, AND, s.srcB, AS, s.id, rest);
  }

  lemma {:induction false} DupeShapes(s: Stmt, rest: Input)
    requires s.Dupe?
    ensures StmtThen(s, rest) == BitShapes(Bits(s)) + rest
  {
    hide Word, Kw, Ident, BitShapes;
    SixShapes(DUPE, s.src, AS, s.targetA, AND, s.targetB, rest);
  }

  lemma {:induction false} FanoutShapes(s: Stmt, rest: Input)
    requires s.Fanout?
    ensures StmtThen(s, rest) == BitShapes(Bits(s)) + rest
  {
    hide Word, Kw, Ident, BitShapes;
    SixShapes(FANOUT, s.src, AS, s.targetA, AND, s.targetB, rest);
  }

  lemma {:induction false} AppendShapes(s: Stmt, rest: Input)
    requires s.Append?
    ensures StmtThen(s, rest) == BitShapes(Bits(s)) + rest
  {
  }

  lemma {:induction false} TagShapes(s: Stmt, rest: Input)
    requires s.Tag?
    ensures StmtThen(s, rest) == BitShapes(Bits(s)) + rest
  {
  }

  function SourceHead(id: string): seq<Bit> { [Glued(SOURCE), Spc(AS), Id(id)] }

  lemma {:induction false} SourceHeadShapes(id: string, rest: Input)
    ensures BitShapes(SourceHead(id)) + rest == Kw(SOURCE, Kw(AS, Ident(id, rest)))
  {
    hide Word;
  }

  lemma {:induction false} SourceShapes(s: Stmt, rest: Input)
    requires s.Source?
    ensures StmtThen(s, rest) == BitShapes(Bits(s)) + rest
  {
    hide Word, ArgBits, ArgsThen, ClassBits, ClassThen, BitShapes, Kw, Ident;
    var behind := ClassThen(s.qualifier, s.class_, ArgsThen(s.args, false, rest));
    CallShapes(SourceHead(s.id), s.qualifier, s.class_, s.args, rest);
    SourceHeadShapes(s.id, behind);
  }

  function SinkHead(src: string): seq<Bit> { [Glued(SINK), Id(src), Spc(TO)] }

  lemma {:induction false} SinkHeadShapes(src: string, rest: Input)
    ensures BitShapes(SinkHead(src)) + rest == Kw(SINK, Ident(src, Kw(TO, rest)))
  {
    hide Word;
  }

  lemma {:induction false} SinkShapes(s: Stmt, rest: Input)
    requires s.Sink?
    ensures StmtThen(s, rest) == BitShapes(Bits(s)) + rest
  {
    hide Word, ArgBits, ArgsThen, ClassBits, ClassThen, BitShapes, Kw, Ident;
    var behind := ClassThen(s.qualifier, s.class_, ArgsThen(s.args, false, rest));
    CallShapes(SinkHead(s.src), s.qualifier, s.class_, s.args, rest);
    SinkHeadShapes(s.src, behind);
  }

  function AsyncHead(src: string, id: string): seq<Bit> { [Glued(SINK), Id(src), Spc(ASYNC), Spc(AS), Id(id), Spc(TO)] }

  lemma {:induction false} AsyncHeadShapes(src: string, id: string, rest: Input)
    ensures BitShapes(AsyncHead(src, id)) + rest == Kw(SINK, Ident(src, Kw(ASYNC, Kw(AS, Ident(id, Kw(TO, rest))))))
  {
    hide Word;
  }

  lemma {:induction false} AsyncSinkShapes(s: Stmt, rest: Input)
    requires s.AsyncSink?
    ensures StmtThen(s, rest) == BitShapes(Bits(s)) + rest
  {
    hide Word, ArgBits, ArgsThen, ClassBits, ClassThen, BitShapes, Kw, Ident;
    var behind := ClassThen(s.qualifier, s.class_, ArgsThen(s.args, false, rest));
    CallShapes(AsyncHead(s.src, s.id), s.qualifier, s.class_, s.args, rest);
    AsyncHeadShapes(s.src, s.id, behind);
  }

  lemma {:induction false} JoinShapes(s: Stmt, rest: Input)
    requires s.Join? && s.patterns != []
    ensures StmtThen(s, rest) == BitShapes(Bits(s)) + rest
  {
    hide Word, ArgBits, ArgsThen, PatternsThen, BitShapes, Kw, Ident;
    var Join(src, patterns) := s;
    PatternsShapes(patterns, rest);
    ArgsShapes(StringShapes(patterns), rest);
    ConcatShapes(JoinHead(src), ArgBits(StringShapes(patterns)));
    JoinHeadShapes(src, PatternsThen(patterns, rest));
    assert BitShapes(JoinHead(src)) + BitShapes(ArgBits(StringShapes(patterns))) + rest
        == BitShapes(JoinHead(src)) + (BitShapes(ArgBits(StringShapes(patterns))) + rest);
  }

  function JoinHead(src: string): seq<Bit> { [Glued(JOIN), Id(src), Spc(WITH)] }

  lemma {:induction false} JoinHeadShapes(src: string, rest: Input)
    ensures BitShapes(JoinHead(src)) + rest == Kw(JOIN, Ident(src, Kw(WITH, rest)))
  {
    hide Word;
  }

  // ----- Neighbours in a canonical text --------------------------------------------------------

  lemma {:induction false} JointCons(x: Bit, bits: seq<Bit>)
    requires bits == [] || (Joint(x, bits[0]) && AllJoint(bits))
    ensures AllJoint([x] + bits)
  {
  }

  lemma {:induction false} JointConcat(a: seq<Bit>, b: seq<Bit>)
    requires AllJoint(a) && AllJoint(b)
    requires a == [] || b == [] || Joint(a[|a| - 1], b[0])
    ensures AllJoint(a + b)
  {
  }

  predicate AllArgs(args: seq<Shape>) {
    forall k :: 0 <= k < |args| ==> IsArg(args[k].typ)
  }

  lemma {:induction false} MoreArgsJoint(x: Bit, args: seq<Shape>)
    requires IsArg(x.shape.typ) && AllArgs(args)
    ensures AllJoint([x] + MoreArgBits(args))
    decreases |args|
  {
    hide AllJoint, Word;
    if args == [] {
      JointCons(x, []);
      assert [x] + [] == [x];
    } else {
      var arg := Bit(true, args[0]);
      assert AllArgs(args[1..]);
      MoreArgsJoint(arg, args[1..]);
      var behind := [arg] + MoreArgBits(args[1..]);
      JointCons(Glued(COMMA), behind);
      JointCons(x, [Glued(COMMA)] + behind);
      assert MoreArgBits(args) == [Glued(COMMA)] + behind;
    }
  }

  lemma {:induction false} ArgsJoint(args: seq<Shape>)
    requires AllArgs(args)
    ensures AllJoint(ArgBits(args))
  {
    hide AllJoint;
    if args != [] {
      MoreArgsJoint(Bit(true, args[0]), args[1..]);
    } else {
      NoneJoint();
    }
  }

  lemma {:induction false} NoneJoint()
    ensures AllJoint([])
  {
  }

  lemma {:induction false} FieldsJoint(x: Bit, fields: seq<(string, string)>, first: bool)
    requires if first then x.shape.typ.LPAR? && fields != [] else x.shape.typ.INT?
    ensures AllJoint([x] + (FieldBits(fields, first) + [Glued(RPAR)]))
    decreases |fields|
  {
    hide AllJoint, Word;
    if fields == [] {
      JointCons(Glued(RPAR), []);
      assert [Glued(RPAR)] + [] == [Glued(RPAR)] == FieldBits(fields, first) + [Glued(RPAR)];
      JointCons(x, [Glued(RPAR)]);
    } else {
      var id, num := Bit(!first, Shape(IDENTIFIER, fields[0].0)), Bit(true, Shape(INT, fields[0].1));
      FieldsJoint(num, fields[1..], false);
      var more := [num] + (FieldBits(fields[1..], false) + [Glued(RPAR)]);
      JointCons(Spc(EQ), more);
      JointCons(id, [Spc(EQ)] + more);
      var all := [id] + ([Spc(EQ)] + more);
      if first {
        JointCons(x, all);
        assert FieldBits(fields, first) + [Glued(RPAR)] == all;
      } else {
        JointCons(Glued(COMMA), all);
        JointCons(x, [Glued(COMMA)] + all);
        assert FieldBits(fields, first) + [Glued(RPAR)] == [Glued(COMMA)] + all;
      }
    }
  }

  /** The bits of a statement keep apart. */
  lemma {:induction false} StmtJoint(s: Stmt, eng: Engine)
    requires LiteralsOk(s, eng)
    ensures AllJoint(Bits(s))
  {
    if s.Cut? {
      CutJoint(s);
    } else if s.Source? || s.Sink? || s.AsyncSink? || s.Join? {
      CallJoint(s, eng);
    } else {
      hide Word;
    }
  }

  lemma {:induction false} CutJoint(s: Stmt)
    requires s.Cut? && s.fields != []
    ensures AllJoint(Bits(s))
  {
    hide Word, FieldBits;
    var Cut(delimiter, src, fields) := s;
    var head, list := CutHead(delimiter, src), FieldBits(fields, true) + [Glued(RPAR)];
    FieldsJoint(Spc(LPAR), fields, true);
    var more := [Spc(LPAR)] + list;
    var front := head[..|head| - 1];
    CutHeadJoint(delimiter, src);
    JointConcat(front, more);
    assert Bits(s) == front + more;
  }

  lemma {:induction false} CutHeadJoint(delimiter: Option<string>, src: string)
    ensures
      var head := CutHead(delimiter, src);
      AllJoint(head[..|head| - 1]) && head[|head| - 1] == Spc(LPAR)
  {
  }

  lemma {:induction false} CallJoint(s: Stmt, eng: Engine)
    requires LiteralsOk(s, eng) && (s.Source? || s.Sink? || s.AsyncSink? || s.Join?)
    ensures AllJoint(Bits(s))
  {
    hide Word, ArgBits;
    match s
    case Source(id, q, c, args) =>
      HeadJoint([Glued(SOURCE), Spc(AS), Id(id)] + ClassBits(q, c), args);
    case Sink(src, q, c, args) =>
      HeadJoint([Glued(SINK), Id(src), Spc(TO)] + ClassBits(q, c), args);
    case AsyncSink(src, id, q, c, args) =>
      HeadJoint([Glued(SINK), Id(src), Spc(ASYNC), Spc(AS), Id(id), Spc(TO)] + ClassBits(q, c), args);
    case Join(src, patterns) =>
      AllStrings(patterns);
      HeadJoint([Glued(JOIN), Id(src), Spc(WITH)], StringShapes(patterns));
  }

  lemma {:induction false} HeadJoint(head: seq<Bit>, args: seq<Shape>)
    requires AllJoint(head) && AllArgs(args)
    ensures AllJoint(head + ArgBits(args))
  {
    ArgsJoint(args);
    JointConcat(head, ArgBits(args));
  }

  lemma {:induction false} AllStrings(texts: seq<string>)
    ensures AllArgs(StringShapes(texts))
  {
    if texts != [] {
      AllStrings(texts[1..]);
    }
  }

  // ----- Lines in their canonical form ---------------------------------------------------------

  predicate Counted(s: Stmt) {
    (s.Cut? ==> s.fields != []) && (s.Join? ==> s.patterns != [])
  }

  lemma {:induction false} LineShapes(l: Line, rest: Input)
    requires LineOk(l) && !l.trailing && Counted(l.stmt)
    ensures l.last ==> LineThen(l, rest) == BitShapes(LineBits(l)) + Kw(EOF, rest)
    ensures !l.last ==> LineThen(l, rest) == BitShapes(LineBits(l)) + rest
  {
    hide Bits, StmtThen;
    var s := l.stmt;
    if s.Blank? {
      BlankShapes(rest);
    } else {
      StmtShapes(s, Kw(if l.last then EOF else EOL, rest));
      ConcatShapes(Bits(s), [Glued(EOL)]);
      EolShapes(rest);
    }
  }

  lemma {:induction false} EolShapes(rest: Input)
    ensures BitShapes([Glued(EOL)]) + rest == Kw(EOL, rest)
  {
  }

  lemma {:induction false} BlankShapes(rest: Input)
    ensures StmtThen(Blank, Kw(EOL, rest)) == BitShapes(Bits(Blank)) + rest
  {
  }

  predicate AllCounted(lines: seq<Line>) {
    forall k :: 0 <= k < |lines| ==> Counted(lines[k].stmt)
  }

  lemma {:induction false} LinesShapes(lines: seq<Line>)
    requires LinesOk(lines) && NoTrailing(lines) && AllCounted(lines)
    ensures ScriptShapes(lines) == BitShapes(LinesBits(lines)) + [Fixed(EOF)]
  {
    hide LineThen, LineBits, LineOk, Counted, Word;
    if lines == [] {
      NoShapes([Fixed(EOF)]);
    } else {
      var l := lines[0];
      var rest := if l.last then [] else ScriptShapes(lines[1..]);
      LineShapes(l, rest);
      ConcatShapes(LineBits(l), LinesBits(lines[1..]));
      if l.last {
        assert lines[1..] == [] && Kw(EOF, []) == [Fixed(EOF)];
      } else {
        LinesShapes(lines[1..]);
      }
    }
  }

  lemma {:induction false} LineJoint(l: Line, eng: Engine)
    requires LiteralsOk(l.stmt, eng)
    ensures AllJoint(LineBits(l)) && LineBits(l) != []
    ensures !l.last ==> LineBits(l)[|LineBits(l)| - 1] == Glued(EOL)
  {
    hide Bits, LiteralsOk, AllJoint, Word;
    StmtJoint(l.stmt, eng);
    NoneJoint();
    JointCons(Glued(EOL), []);
    assert [Glued(EOL)] + [] == [Glued(EOL)];
    JointConcat(Bits(l.stmt), [Glued(EOL)]);
    StmtHasBits(l.stmt);
  }

  lemma {:induction false} StmtHasBits(s: Stmt)
    ensures Bits(s) != [] && (s.Blank? ==> Bits(s) == [Glued(EOL)])
  {
  }

  predicate AllLiteralsOk(lines: seq<Line>, eng: Engine) {
    forall k :: 0 <= k < |lines| ==> LiteralsOk(lines[k].stmt, eng)
  }

  lemma {:induction false} LinesJoint(lines: seq<Line>, eng: Engine)
    requires LinesOk(lines) && AllLiteralsOk(lines, eng)
    ensures AllJoint(LinesBits(lines))
  {
    hide LineOk, LineBits, LiteralsOk, AllJoint, Word;
    if lines == [] {
      NoneJoint();
    } else {
      LineJoint(lines[0], eng);
      LinesJoint(lines[1..], eng);
      if lines[0].last {
        assert lines[1..] == [];
      }
      JointConcat(LineBits(lines[0]), LinesBits(lines[1..]));
    }
  }

  // ----- Other tokens for the same statements --------------------------------------------------

  /** ys has the line ends of xs. */
  predicate SameEnds(xs: Input, ys: Input) {
    && |xs| == |ys|
    && forall k :: 0 <= k < |xs| && (xs[k].typ.EOL? || xs[k].typ.EOF?) ==> ys[k] == xs[k]
  }

  lemma {:induction false} SameEndsTail(p: Input, xs: Input, ys: Input)
    requires SameEnds(p + xs, p + ys)
    ensures SameEnds(xs, ys)
  {
    forall k | 0 <= k < |xs| && (xs[k].typ.EOL? || xs[k].typ.EOF?)
      ensures ys[k] == xs[k]
    {
      assert (p + xs)[|p| + k] == xs[k] && (p + ys)[|p| + k] == ys[k];
    }
  }

  /** The same statements, with the line ends in the same places, have the same tokens. */
  lemma {:induction false} SameStmtsSameShapes(lines: seq<Line>, other: seq<Line>)
    requires LinesOk(lines) && LinesOk(other) && NoTrailing(lines) && AllCounted(lines)
    requires Stmts(lines) == Stmts(other)
    requires SameEnds(ScriptShapes(lines), ScriptShapes(other))
    ensures ScriptShapes(lines) == ScriptShapes(other)
  {
    hide StmtThen, Counted, Word, SameEnds;
    if lines != [] {
      var l, m := lines[0], other[0];
      assert Stmts(lines)[1..] == Stmts(lines[1..]) && Stmts(other)[1..] == Stmts(other[1..]);
      var a := if l.last then [] else ScriptShapes(lines[1..]);
      var b := if m.last then [] else ScriptShapes(other[1..]);
      SameLine(l, m, a, b);
      if l.last {
        assert a == b;
      } else {
        SameStmtsSameShapes(lines[1..], other[1..]);
      }
    }
  }

  lemma {:induction false} SameLine(l: Line, m: Line, a: Input, b: Input)
    requires l.stmt == m.stmt && !l.trailing && LineOk(l) && LineOk(m) && Counted(l.stmt)
    requires SameEnds(LineThen(l, a), LineThen(m, b))
    ensures l == m && SameEnds(a, b)
  {
    hide StmtThen, Bits, Word, BitShapes;
    var s := l.stmt;
    var ending := Kw(if l.last then EOF else EOL, a);
    var ending' := CommaThen(m.trailing, Kw(if m.last then EOF else EOL, b));
    var front := if s.Blank? then [] else BitShapes(Bits(s));
    if s.Blank? {
      BlankEnds(ending);
      BlankEnds(ending');
    } else {
      StmtShapes(s, ending);
      StmtShapes(s, ending');
    }
    SameEndsTail(front, ending, ending');
    assert ending[0] == ending'[0];
    SameEndsTail(ending[..1], a, b);
  }

  lemma {:induction false} BlankEnds(rest: Input)
    ensures StmtThen(Blank, rest) == [] + rest
  {
  }

  // ----- The ink of a script -------------------------------------------------------------------

  function StmtsInk(stmts: seq<Stmt>): nat {
    if stmts == [] then 0 else InkIn(BitShapes(Bits(stmts[0]))) + StmtsInk(stmts[1..])
  }

  lemma {:induction false} LineEndInk(rest: Input)
    ensures InkIn(Kw(EOL, rest)) == InkIn(rest) == InkIn(Kw(EOF, rest))
  {
    assert Word(EOL) == ['\n'] && Word(EOF) == [];
    InkInConcat([Fixed(EOL)], rest);
    InkInConcat([Fixed(EOF)], rest);
  }

  lemma {:induction false} CommaInk(rest: Input)
    ensures InkIn(Kw(COMMA, rest)) == 1 + InkIn(rest)
  {
    assert Word(COMMA) == [','];
    InkInConcat([Fixed(COMMA)], rest);
  }

  lemma {:induction false} BlankInk()
    ensures InkIn(BitShapes(Bits(Blank))) == 0
  {
    hide Word, InkIn;
    assert Bits(Blank) == [Glued(EOL)] && BitShapes([Glued(EOL)]) == [Fixed(EOL)] == Kw(EOL, []);
    LineEndInk([]);
    NoInk();
  }

  lemma {:induction false} NoInk()
    ensures InkIn([]) == 0 && InkIn([Fixed(EOF)]) == 0
  {
    LineEndInk([]);
    assert Kw(EOF, []) == [Fixed(EOF)];
  }

  lemma {:induction false} LineInk(l: Line, rest: Input)
    requires LineOk(l) && Counted(l.stmt)
    ensures InkIn(LineThen(l, rest))
         == InkIn(BitShapes(Bits(l.stmt))) + (if l.trailing then 1 else 0) + InkIn(rest)
  {
    hide Bits, StmtThen, BitShapes, InkIn, Word, Kw;
    var ending := Kw(if l.last then EOF else EOL, rest);
    LineEndInk(rest);
    CommaInk(ending);
    if l.stmt.Blank? {
      BlankInk();
      BlankEnds(CommaThen(l.trailing, ending));
      assert [] + CommaThen(l.trailing, ending) == CommaThen(l.trailing, ending);
    } else {
      StmtShapes(l.stmt, CommaThen(l.trailing, ending));
      InkInConcat(BitShapes(Bits(l.stmt)), CommaThen(l.trailing, ending));
    }
  }

  /** However a script was written, it has the ink of its statements; trailing commas come on top. */
  lemma {:induction false} ScriptInk(lines: seq<Line>)
    requires LinesOk(lines) && AllCounted(lines)
    ensures StmtsInk(Stmts(lines)) <= InkIn(ScriptShapes(lines))
    ensures NoTrailing(lines) ==> InkIn(ScriptShapes(lines)) == StmtsInk(Stmts(lines))
  {
    hide LineThen, LineOk, Counted, Bits, BitShapes, Word, InkIn;
    if lines == [] {
      NoInk();
    } else {
      var l := lines[0];
      NoInk();
      LineInk(l, if l.last then [] else ScriptShapes(lines[1..]));
      ScriptInk(lines[1..]);
      assert Stmts(lines) == [l.stmt] + Stmts(lines[1..]);
    }
  }

  // ----- Round trips ---------------------------------------------------------------------------

  /** The scope rules of a script imply that its literals are well formed. */
  lemma {:induction false} ScriptParts(lines: seq<Line>, sc: Scope, eng: Engine)
    requires ScriptInScope(Stmts(lines), sc, eng)
    ensures AllLiteralsOk(lines, eng) && AllCounted(lines)
  {
    hide InScope, LiteralsOk, After, Counted;
    if lines != [] {
      assert Stmts(lines)[1..] == Stmts(lines[1..]);
      ScriptParts(lines[1..], After(lines[0].stmt, sc), eng);
      LiteralsCounted(lines[0].stmt, eng);
      assert lines == [lines[0]] + lines[1..];
    }
  }

  lemma {:induction false} LiteralsCounted(s: Stmt, eng: Engine)
    requires LiteralsOk(s, eng)
    ensures Counted(s)
  {
  }

  lemma {:induction false} RelexEnds(bits: seq<Bit>)
    ensures SameEnds(BitShapes(bits) + [Fixed(EOF)], Relex(bits) + [Fixed(EOF)])
  {
    hide Relexed, Word, SameEnds, BitShapes;
    if bits == [] {
      NothingIsSafe();
      SameEndsItself([] + [Fixed(EOF)]);
    } else {
      RelexEnds(bits[1..]);
      RelexHead(bits[0].shape, Print(bits[1..]));
      ConsShapes(bits);
      var x, y := bits[0].shape, Relex(bits)[0];
      SameEndsCons(x, y, BitShapes(bits[1..]) + [Fixed(EOF)], Relex(bits[1..]) + [Fixed(EOF)]);
      assert [x] + BitShapes(bits[1..]) + [Fixed(EOF)] == [x] + (BitShapes(bits[1..]) + [Fixed(EOF)]);
      assert [y] + Relex(bits[1..]) + [Fixed(EOF)] == [y] + (Relex(bits[1..]) + [Fixed(EOF)]);
    }
  }

  lemma {:induction false} RelexHead(x: Shape, next: string)
    ensures x.typ.EOL? || x.typ.EOF? ==> Relexed(x, next) == x.typ
  {
  }

  lemma {:induction false} ConsShapes(bits: seq<Bit>)
    requires bits != []
    ensures BitShapes(bits) == [bits[0].shape] + BitShapes(bits[1..])
  {
  }

  lemma {:induction false} SameEndsItself(xs: Input)
    ensures SameEnds(xs, xs)
  {
  }

  lemma {:induction false} SameEndsCons(x: Shape, y: Shape, xs: Input, ys: Input)
    requires SameEnds(xs, ys)
    requires x.typ.EOL? || x.typ.EOF? ==> y == x
    ensures SameEnds([x] + xs, [y] + ys)
  {
  }

  lemma {:induction false} LiteralsCount(s: Stmt, eng: Engine)
    requires LiteralsOk(s, eng)
    ensures Counts(s)
  {
  }

  lemma {:induction false} RelexTexts(bits: seq<Bit>)
    ensures forall k :: 0 <= k < |bits| ==> Relex(bits)[k].text == bits[k].shape.text
  {
    hide Relexed;
    if bits != [] {
      RelexTexts(bits[1..]);
    }
  }

  lemma {:induction false} SameTexts(a: seq<Bit>, b: seq<Bit>)
    requires Relex(a) == Relex(b)
    ensures Texts(a) == Texts(b)
  {
    hide Relex;
    RelexTexts(a);
    RelexTexts(b);
    assert |a| == |Relex(a)| == |b|;
  }

  /** A statement is determined by its canonical text, keywords as names and all. */
  lemma {:induction false} TextDetermines(s: Stmt, other: Stmt, eng: Engine)
    requires AllWellFormed(Bits(s)) && LiteralsOk(s, eng)
    requires AllWellFormed(Bits(other)) && LiteralsOk(other, eng)
    requires Text(s) == Text(other)
    ensures s == other
  {
    hide *;
    var wide := |Text(s)| + 1;
    assert Text(s) == Print(Bits(s)) && Text(other) == Print(Bits(other)) by { TextIs(s); TextIs(other); }
    StmtJoint(s, eng);
    StmtJoint(other, eng);
    TidyBits(Bits(s));
    TidyBits(Bits(other));
    WideWindowFits(Text(s), wide);
    LexPrinted(Bits(s), wide);
    LexPrinted(Bits(other), wide);
    SamePrefix(Relex(Bits(s)), Relex(Bits(other)), [Fixed(EOF)]);
    SameTexts(Bits(s), Bits(other));
    LiteralsCount(s, eng);
    LiteralsCount(other, eng);
    StmtInIs(s);
    StmtInIs(other);
  }

  lemma {:induction false} TextIs(s: Stmt)
    ensures Text(s) == Print(Bits(s))
  {
  }

  lemma {:induction false} NodesAre(stmts: seq<Stmt>)
    ensures forall k :: 0 <= k < |stmts| ==> Nodes(stmts)[k].text == Text(stmts[k])
  {
    hide FieldsOf, Text;
    if stmts != [] {
      NodesAre(stmts[1..]);
    }
  }

  ghost predicate AllLiterals(stmts: seq<Stmt>, eng: Engine) {
    forall k :: 0 <= k < |stmts| ==> LiteralsOk(stmts[k], eng)
  }

  /** Nodes determine the statements that they stand for. */
  lemma {:induction false} NodesDetermine(stmts: seq<Stmt>, others: seq<Stmt>, eng: Engine)
    requires StmtsFormed(stmts) && AllLiterals(stmts, eng)
    requires StmtsFormed(others) && AllLiterals(others, eng)
    requires Nodes(stmts) == Nodes(others)
    ensures stmts == others
  {
    hide Nodes, LiteralsOk, AllWellFormed, Bits, Text;
    NodesAre(stmts);
    NodesAre(others);
    assert |stmts| == |Nodes(stmts)| == |others|;
    forall k | 0 <= k < |stmts|
      ensures stmts[k] == others[k]
    {
      assert Nodes(stmts)[k].text == Nodes(others)[k].text;
      TextDetermines(stmts[k], others[k], eng);
    }
  }

  /** The ink of the statements shows in the texts of their nodes. */
  lemma {:induction false} NodesInk(stmts: seq<Stmt>, others: seq<Stmt>)
    requires Nodes(stmts) == Nodes(others)
    ensures StmtsInk(stmts) == StmtsInk(others)
  {
    hide NodeOf, Bits, BitShapes, InkIn, Ink;
    if stmts != [] {
      assert Nodes(stmts)[1..] == Nodes(stmts[1..]) && Nodes(others)[1..] == Nodes(others[1..]);
      NodesInk(stmts[1..], others[1..]);
      NodeInk(stmts[0]);
      NodeInk(others[0]);
      assert NodeOf(stmts[0]) == Nodes(stmts)[0] == Nodes(others)[0] == NodeOf(others[0]);
    }
  }

  lemma {:induction false} NodeInk(s: Stmt)
    ensures InkIn(BitShapes(Bits(s))) == Ink(NodeOf(s).text)
  {
    hide Bits, FieldsOf, BitShapes, InkIn, Ink;
    ShapesOfBits(Bits(s));
    InkOfPrint(Bits(s), BitShapes(Bits(s)));
  }

  /** Lexing the canonical text of some lines and parsing it again gives their nodes back exactly if the
      text fits into the window and every identifier in it that spells a keyword stands directly in front
      of a comma; and then the scope as well. */
  lemma {:induction false} LinesRoundTrip(lines: seq<Line>, sc: Scope, eng: Engine, cap: nat)
    requires LinesOk(lines) && NoTrailing(lines) && ScriptInScope(Stmts(lines), sc, eng)
    requires 1 <= cap && AllWellFormed(LinesBits(lines)) && StmtsFormed(Stmts(lines))
    ensures
      var text := Print(LinesBits(lines));
      var r := ReadScript(Shapes(Lex(text, cap)), sc, eng);
      && (r.Done? && Nodes(r.stmts) == Nodes(Stmts(lines)) <==> Fits(text, cap) && CommaSafe(LinesBits(lines)))
      && (Fits(text, cap) && CommaSafe(LinesBits(lines)) ==> r == Done(Stmts(lines), AfterAll(Stmts(lines), sc)))
  {
    hide *;
    var bits := LinesBits(lines);
    var stmts := Stmts(lines);
    var xs := Shapes(Lex(Print(bits), cap));
    var r := ReadScript(xs, sc, eng);
    ScriptParts(lines, sc, eng);
    LinesJoint(lines, eng);
    LinesShapes(lines);
    TidyBits(bits);
    if r.Done? && Nodes(r.stmts) == Nodes(stmts) {
      ReadyLex(Print(bits), cap);
      var other := ScriptTakes(xs, sc, eng);
      ScriptParts(other, sc, eng);
      NodesInk(r.stmts, stmts);
      SameInk(lines, other);
      FullInkFits(Print(bits), cap);
      SameNodesSameStmts(lines, other, eng, cap);
      LexPrinted(bits, cap);
      RelexEnds(bits);
      SameStmtsSameShapes(lines, other);
      SamePrefix(BitShapes(bits), Relex(bits), [Fixed(EOF)]);
    }
    if Fits(Print(bits), cap) && CommaSafe(bits) {
      LexPrinted(bits, cap);
      ScriptReads(lines, sc, eng);
    }
  }

  lemma {:induction false} SameNodesSameStmts(lines: seq<Line>, other: seq<Line>, eng: Engine, cap: nat)
    requires AllLiteralsOk(lines, eng) && StmtsFormed(Stmts(lines))
    requires 1 <= cap && Fits(Print(LinesBits(lines)), cap)
    requires LinesOk(other) && AllCounted(other) && AllLiteralsOk(other, eng)
    requires ScriptShapes(other) == Shapes(Lex(Print(LinesBits(lines)), cap))
    requires Nodes(Stmts(lines)) == Nodes(Stmts(other))
    ensures Stmts(lines) == Stmts(other)
  {
    hide *;
    FormedLines(Print(LinesBits(lines)), other, cap);
    LiteralsOfLines(lines, eng);
    LiteralsOfLines(other, eng);
    NodesDetermine(Stmts(lines), Stmts(other), eng);
  }

  lemma {:induction false} LiteralsOfLines(lines: seq<Line>, eng: Engine)
    requires AllLiteralsOk(lines, eng)
    ensures AllLiterals(Stmts(lines), eng)
  {
    hide LiteralsOk;
    StmtsAt(lines);
  }

  /** The ink of a canonical text, and of anything else that makes up as much. */
  lemma {:induction false} SameInk(lines: seq<Line>, other: seq<Line>)
    requires LinesOk(lines) && NoTrailing(lines) && AllCounted(lines)
    requires LinesOk(other) && AllCounted(other) && StmtsInk(Stmts(other)) == StmtsInk(Stmts(lines))
    ensures Ink(Print(LinesBits(lines))) <= InkIn(ScriptShapes(other))
    ensures ScriptShapes(other) != [] && ScriptShapes(other)[|ScriptShapes(other)| - 1].typ.EOF?
  {
    hide *;
    var bits := LinesBits(lines);
    ScriptInk(lines);
    ScriptInk(other);
    LinesShapes(lines);
    InkInConcat(BitShapes(bits), [Fixed(EOF)]);
    NoInk();
    ShapesOfBits(bits);
    InkOfPrint(bits, BitShapes(bits));
    EndsInEof(other);
  }

  lemma {:induction false} ShapesOfBits(bits: seq<Bit>)
    ensures forall k :: 0 <= k < |bits| ==> bits[k].shape == BitShapes(bits)[k]
  {
  }

  lemma {:induction false} StmtsAt(lines: seq<Line>)
    ensures |Stmts(lines)| == |lines| && forall k :: 0 <= k < |lines| ==> Stmts(lines)[k] == lines[k].stmt
  {
    if lines != [] {
      StmtsAt(lines[1..]);
    }
  }

  lemma {:induction false} EndsInEof(lines: seq<Line>)
    requires LinesOk(lines) && AllCounted(lines)
    ensures ScriptShapes(lines) != [] && ScriptShapes(lines)[|ScriptShapes(lines)| - 1].typ.EOF?
  {
    hide LineThen, Counted, LineOk, Word;
    if lines != [] {
      if !lines[0].last {
        EndsInEof(lines[1..]);
      }
      LineEnd(lines[0], if lines[0].last then [] else ScriptShapes(lines[1..]));
    }
  }

  lemma {:induction false} LineEnd(l: Line, rest: Input)
    requires LineOk(l) && Counted(l.stmt)
    requires if rest == [] then l.last else rest[|rest| - 1].typ.EOF?
    ensures LineThen(l, rest) != [] && LineThen(l, rest)[|LineThen(l, rest)| - 1].typ.EOF?
  {
    hide Bits, StmtThen, BitShapes, Word;
    var ending := CommaThen(l.trailing, Kw(if l.last then EOF else EOL, rest));
    if l.stmt.Blank? {
      BlankEnds(ending);
    } else {
      StmtShapes(l.stmt, ending);
    }
  }

  lemma {:induction false} SamePrefix(a: Input, b: Input, c: Input)
    requires a + c == b + c
    ensures a == b
  {
    assert |a| == |b|;
    assert a == (a + c)[..|a|] && b == (b + c)[..|b|];
  }

  lemma {:induction false} LexPrinted(bits: seq<Bit>, cap: nat)
    requires 1 <= cap && Separated(bits) && Fits(Print(bits), cap)
    ensures Shapes(Lex(Print(bits), cap)) == Relex(bits) + [Fixed(EOF)]
  {
    hide LexFrom, Separated, Fits, Relex, Print;
    PrintThenLex(bits, 1, cap);
  }

  // ----- What holds of the tokens of a script holds of its statements ---------------------------

  /** P holds of all tokens but the last. */
  ghost predicate Every(P: Shape -> bool, xs: Input) {
    forall k :: 0 <= k < |xs| - 1 ==> P(xs[k])
  }

  ghost predicate EveryBit(P: Shape -> bool, bits: seq<Bit>) {
    forall k :: 0 <= k < |bits| ==> P(bits[k].shape)
  }

  ghost predicate EveryStmt(P: Shape -> bool, stmts: seq<Stmt>) {
    forall k :: 0 <= k < |stmts| ==> EveryBit(P, Bits(stmts[k]))
  }

  /** The statement of a line is made of tokens of the line. */
  lemma {:induction false} LineEvery(P: Shape -> bool, l: Line, rest: Input)
    requires LineOk(l) && Counted(l.stmt) && P(Fixed(EOL))
    requires Every(P, LineThen(l, rest))
    ensures EveryBit(P, Bits(l.stmt))
    ensures rest != [] ==> Every(P, rest)
  {
    hide Bits, StmtThen, BitShapes, Every, EveryBit, Word, CommaThen, Kw;
    var s := l.stmt;
    EndingTail(l, rest);
    var ending := CommaThen(l.trailing, Kw(if l.last then EOF else EOL, rest));
    assert LineThen(l, rest) == StmtThen(s, ending);
    if s.Blank? {
      BlankEvery(P);
      BlankEnds(ending);
      EveryParts(P, [], ending);
    } else {
      StmtShapes(s, ending);
      EveryParts(P, BitShapes(Bits(s)), ending);
      EveryBits(P, Bits(s));
    }
    EveryTail(P, ending, |ending| - |rest|);
  }

  lemma {:induction false} EndingTail(l: Line, rest: Input)
    ensures
      var ending := CommaThen(l.trailing, Kw(if l.last then EOF else EOL, rest));
      |rest| < |ending| && ending[|ending| - |rest|..] == rest
  {
    hide Word;
  }

  lemma {:induction false} BlankEvery(P: Shape -> bool)
    requires P(Fixed(EOL))
    ensures EveryBit(P, Bits(Blank))
  {
  }

  lemma {:induction false} EveryParts(P: Shape -> bool, a: Input, b: Input)
    requires Every(P, a + b) && b != []
    ensures forall k :: 0 <= k < |a| ==> P(a[k])
    ensures Every(P, b)
  {
    forall k | 0 <= k < |a|
      ensures P(a[k])
    {
      assert (a + b)[k] == a[k];
    }
    forall k | 0 <= k < |b| - 1
      ensures P(b[k])
    {
      assert (a + b)[|a| + k] == b[k];
    }
  }

  lemma {:induction false} EveryTail(P: Shape -> bool, xs: Input, from: nat)
    requires Every(P, xs) && from <= |xs|
    ensures Every(P, xs[from..])
  {
  }

  lemma {:induction false} EveryBits(P: Shape -> bool, bits: seq<Bit>)
    requires forall k :: 0 <= k < |bits| ==> P(BitShapes(bits)[k])
    ensures EveryBit(P, bits)
  {
    forall k | 0 <= k < |bits|
      ensures P(bits[k].shape)
    {
      assert BitShapes(bits)[k] == bits[k].shape;
    }
  }

  lemma {:induction false} ScriptHasShapes(lines: seq<Line>)
    ensures ScriptShapes(lines) != []
  {
  }

  lemma {:induction false} LinesEvery(P: Shape -> bool, lines: seq<Line>)
    requires LinesOk(lines) && AllCounted(lines) && P(Fixed(EOL))
    requires Every(P, ScriptShapes(lines))
    ensures EveryStmt(P, Stmts(lines))
  {
    hide LineThen, LineOk, Counted, Bits, Every, EveryBit, Word;
    if lines != [] {
      var rest := if lines[0].last then [] else ScriptShapes(lines[1..]);
      assert ScriptShapes(lines) == LineThen(lines[0], rest);
      ScriptHasShapes(lines[1..]);
      LineEvery(P, lines[0], rest);
      if lines[0].last {
        assert lines[1..] == [];
      } else {
        LinesEvery(P, lines[1..]);
      }
      assert Stmts(lines) == [lines[0].stmt] + Stmts(lines[1..]);
    }
  }

  predicate StmtsFormed(stmts: seq<Stmt>) {
    forall k :: 0 <= k < |stmts| ==> AllWellFormed(Bits(stmts[k]))
  }

  /** The statements of a script in their canonical form, one on each line. */
  function Canonical(stmts: seq<Stmt>): (r: seq<Line>)
    ensures |r| == |stmts|
    ensures forall k :: 0 <= k < |r| ==> r[k] == Line(stmts[k], false, false)
  {
    if stmts == [] then [] else [Line(stmts[0], false, false)] + Canonical(stmts[1..])
  }

  lemma {:induction false} CanonicalLines(stmts: seq<Stmt>)
    ensures LinesOk(Canonical(stmts)) && NoTrailing(Canonical(stmts)) && Stmts(Canonical(stmts)) == stmts
  {
    if stmts != [] {
      CanonicalLines(stmts[1..]);
      assert Canonical(stmts)[1..] == Canonical(stmts[1..]);
      assert stmts == [stmts[0]] + stmts[1..];
    }
  }

  lemma {:induction false} BitsOfLines(lines: seq<Line>)
    requires StmtsFormed(Stmts(lines))
    ensures AllWellFormed(LinesBits(lines))
  {
    hide LineBits, Bits, AllWellFormed;
    if lines == [] {
      NoneFormed();
    } else {
      var stmts := Stmts(lines);
      assert stmts[1..] == Stmts(lines[1..]);
      assert AllWellFormed(Bits(stmts[0]));
      BitsOfLines(lines[1..]);
      BitsOfLine(lines[0]);
      ConcatFormed(LineBits(lines[0]), LinesBits(lines[1..]));
    }
  }

  lemma {:induction false} NoneFormed()
    ensures AllWellFormed([])
  {
  }

  lemma {:induction false} BitsOfLine(l: Line)
    requires AllWellFormed(Bits(l.stmt))
    ensures AllWellFormed(LineBits(l))
  {
  }

  lemma {:induction false} ConcatFormed(a: seq<Bit>, b: seq<Bit>)
    requires AllWellFormed(a) && AllWellFormed(b)
    ensures AllWellFormed(a + b)
  {
  }

  lemma {:induction false} EolFormed()
    ensures WellFormed(Fixed(EOL))
  {
  }

  lemma {:induction false} ReadyLex(text: string, cap: nat)
    requires 1 <= cap
    ensures Ready(Shapes(Lex(text, cap)))
  {
    hide LexFrom, Ready;
    LexIsReady(text, 1, cap);
  }

  lemma {:induction false} FormedLex(text: string, cap: nat)
    requires 1 <= cap && Fits(text, cap)
    ensures
      var xs := Shapes(Lex(text, cap));
      forall k :: 0 <= k < |xs| - 1 ==> WellFormed(xs[k])
  {
    hide LexFrom, Fits, WellFormed;
    LexIsReady(text, 1, cap);
    RunIsWellFormed(text, 1, cap);
  }

  /** The lines that a text is read as. */
  lemma {:induction false} ReadLines(text: string, eng: Engine, cap: nat) returns (lines: seq<Line>)
    requires 1 <= cap && ReadScript(Shapes(Lex(text, cap)), NO_SCOPE, eng).Done?
    ensures
      var r := ReadScript(Shapes(Lex(text, cap)), NO_SCOPE, eng);
      && LinesOk(lines) && AllCounted(lines) && ScriptShapes(lines) == Shapes(Lex(text, cap))
      && Stmts(lines) == r.stmts && ScriptInScope(r.stmts, NO_SCOPE, eng) && r.scope == AfterAll(r.stmts, NO_SCOPE)
  {
    hide *;
    ReadyLex(text, cap);
    lines := ScriptTakes(Shapes(Lex(text, cap)), NO_SCOPE, eng);
    ScriptParts(lines, NO_SCOPE, eng);
  }

  /** Lines that a fitting text is made of consist of well-formed tokens. */
  lemma {:induction false} FormedLines(text: string, lines: seq<Line>, cap: nat)
    requires 1 <= cap && Fits(text, cap)
    requires LinesOk(lines) && AllCounted(lines) && ScriptShapes(lines) == Shapes(Lex(text, cap))
    ensures StmtsFormed(Stmts(lines))
  {
    hide LexFrom, ScriptShapes, LinesOk, AllCounted, Fits, WellFormed, Bits, Word;
    var P := (x: Shape) => WellFormed(x);
    FormedLex(text, cap);
    EolFormed();
    LinesEvery(P, lines);
    var stmts := Stmts(lines);
    forall k | 0 <= k < |stmts|
      ensures AllWellFormed(Bits(stmts[k]))
    {
      assert EveryBit(P, Bits(stmts[k]));
    }
  }

  /** The statements that are read from a text consist of well-formed tokens and keep the rules of scope. */
  lemma {:induction false} ReadStmtsFormed(text: string, eng: Engine, cap: nat) returns (lines: seq<Line>)
    requires 1 <= cap && Fits(text, cap) && ReadScript(Shapes(Lex(text, cap)), NO_SCOPE, eng).Done?
    ensures
      var r := ReadScript(Shapes(Lex(text, cap)), NO_SCOPE, eng);
      && Stmts(lines) == r.stmts && StmtsFormed(r.stmts)
      && ScriptInScope(r.stmts, NO_SCOPE, eng) && r.scope == AfterAll(r.stmts, NO_SCOPE)
  {
    hide *;
    lines := ReadLines(text, eng, cap);
    FormedLines(text, lines, cap);
  }

  /** For every text that fits into the window and parses: the canonical text of its statements parses to
      the same nodes exactly if it fits as well and every identifier in it that spells a keyword stands
      directly in front of a comma; and then to the same statements and the same scope. */
  lemma {:induction false} ScriptRoundTrip(text: string, eng: Engine, cap: nat)
    requires 1 <= cap && Fits(text, cap) && ReadScript(Shapes(Lex(text, cap)), NO_SCOPE, eng).Done?
    ensures
      var r := ReadScript(Shapes(Lex(text, cap)), NO_SCOPE, eng);
      var bits := LinesBits(Canonical(r.stmts));
      var again := ReadScript(Shapes(Lex(Print(bits), cap)), NO_SCOPE, eng);
      && (again.Done? && Nodes(again.stmts) == Nodes(r.stmts) <==> Fits(Print(bits), cap) && CommaSafe(bits))
      && (Fits(Print(bits), cap) && CommaSafe(bits) ==> again == r)
  {
    hide *;
    var r := ReadScript(Shapes(Lex(text, cap)), NO_SCOPE, eng);
    var lines := ReadStmtsFormed(text, eng, cap);
    var canon := Canonical(r.stmts);
    CanonicalLines(r.stmts);
    BitsOfLines(canon);
    LinesRoundTrip(canon, NO_SCOPE, eng, cap);
  }

  /** Canonical texts fit if each of their tokens leaves one rune of the window free, and a word directly
      in front of a comma two. */
  lemma {:induction false} CanonicalFits(stmts: seq<Stmt>, eng: Engine, cap: nat)
    requires 1 <= cap && ScriptInScope(stmts, NO_SCOPE, eng) && StmtsFormed(stmts)
    requires
      var bits := LinesBits(Canonical(stmts));
      forall k :: 0 <= k < |bits| ==>
        |bits[k].shape.text| + (if IsWord(bits[k].shape.typ) && CommaNext(bits[k..]) then 2 else 1) <= cap
    ensures Fits(Print(LinesBits(Canonical(stmts))), cap)
  {
    hide *;
    var canon := Canonical(stmts);
    CanonicalLines(stmts);
    BitsOfLines(canon);
    ScriptParts(canon, NO_SCOPE, eng);
    LinesJoint(canon, eng);
    TidyBitsFit(LinesBits(canon), cap);
  }

  /** The canonical text of a single statement, read in the scope that it was written for. */
  lemma {:induction false} StmtRoundTrip(s: Stmt, sc: Scope, eng: Engine, cap: nat)
    requires 1 <= cap && AllWellFormed(Bits(s)) && InScope(s, sc) && LiteralsOk(s, eng)
    ensures
      var r := ReadScript(Shapes(Lex(Text(s), cap)), sc, eng);
      && (r.Done? && Nodes(r.stmts) == [NodeOf(s)] <==> Fits(Text(s), cap) && CommaSafe(Bits(s)))
      && (Fits(Text(s), cap) && CommaSafe(Bits(s)) ==> r == Done([s], After(s, sc)))
  {
    hide *;
    var lines := [Line(s, false, !s.Blank?)];
    LineOfStmt(s, sc, eng);
    OneStmt(s);
    LinesRoundTrip(lines, sc, eng, cap);
  }

  lemma {:induction false} OneStmt(s: Stmt)
    requires AllWellFormed(Bits(s))
    ensures StmtsFormed([s]) && Nodes([s]) == [NodeOf(s)]
  {
    hide AllWellFormed, Bits, NodeOf;
    assert Nodes([s]) == [NodeOf(s)] + Nodes([]);
  }

  lemma {:induction false} LineOfStmt(s: Stmt, sc: Scope, eng: Engine)
    requires InScope(s, sc) && LiteralsOk(s, eng)
    ensures
      var lines := [Line(s, false, !s.Blank?)];
      && LinesOk(lines) && NoTrailing(lines) && Stmts(lines) == [s] && LinesBits(lines) == Bits(s)
      && AllLiteralsOk(lines, eng) && ScriptInScope([s], sc, eng) && AfterAll([s], sc) == After(s, sc)
      && Text(s) == Print(Bits(s))
  {
  }

  /** The same for every statement of an accepted text, in the scope that the ones before it leave. */
  lemma {:induction false} EachStmtRoundTrip(text: string, eng: Engine, cap: nat, k: nat)
    requires 1 <= cap && Fits(text, cap) && ReadScript(Shapes(Lex(text, cap)), NO_SCOPE, eng).Done?
    requires k < |ReadScript(Shapes(Lex(text, cap)), NO_SCOPE, eng).stmts|
    ensures
      var s := ReadScript(Shapes(Lex(text, cap)), NO_SCOPE, eng).stmts[k];
      var sc := AfterAll(ReadScript(Shapes(Lex(text, cap)), NO_SCOPE, eng).stmts[..k], NO_SCOPE);
      var r := ReadScript(Shapes(Lex(Text(s), cap)), sc, eng);
      && (r.Done? && Nodes(r.stmts) == [NodeOf(s)] <==> Fits(Text(s), cap) && CommaSafe(Bits(s)))
      && (Fits(Text(s), cap) && CommaSafe(Bits(s)) ==> r == Done([s], After(s, sc)))
  {
    hide *;
    var stmts := ReadScript(Shapes(Lex(text, cap)), NO_SCOPE, eng).stmts;
    var lines := ReadStmtsFormed(text, eng, cap);
    StmtInScope(stmts, NO_SCOPE, eng, k);
    StmtOf(stmts, k);
    StmtRoundTrip(stmts[k], AfterAll(stmts[..k], NO_SCOPE), eng, cap);
  }

  lemma {:induction false} StmtOf(stmts: seq<Stmt>, k: nat)
    requires StmtsFormed(stmts) && k < |stmts|
    ensures AllWellFormed(Bits(stmts[k]))
  {
  }

  lemma {:induction false} StmtInScope(stmts: seq<Stmt>, sc: Scope, eng: Engine, k: nat)
    requires ScriptInScope(stmts, sc, eng) && k < |stmts|
    ensures InScope(stmts[k], AfterAll(stmts[..k], sc)) && LiteralsOk(stmts[k], eng)
  {
    hide InScope, LiteralsOk, After;
    if 0 < k {
      StmtInScope(stmts[1..], After(stmts[0], sc), eng, k - 1);
      assert stmts[..k][1..] == stmts[1..][..k - 1];
    }
  }

  // ----- An identifier that spells a keyword ---------------------------------------------------

  /** cut a set (to=1) */
  const TIGHT_CUT := CutHead(None, "a")
    + [Bit(false, Shape(IDENTIFIER, "to")), Glued(EQ), Bit(false, Shape(INT, "1")), Glued(RPAR)]

  const TO_FIELD := Cut(None, "a", [("to", "1")])

  lemma {:induction false} TightCutFormed()
    ensures |TIGHT_CUT| == 8 && AllWellFormed(TIGHT_CUT)
  {
    hide CutHead;
    TightHeadFormed();
  }

  lemma {:induction false} TightHeadFormed()
    ensures |CutHead(None, "a")| == 4 && AllWellFormed(CutHead(None, "a"))
  {
    hide WellFormed, Word;
    CutIsWord();
    SetIsWord();
    NameIsWord();
  }

  lemma {:induction false} CutIsWord()
    ensures WellFormed(Fixed(CUT))
  {
  }

  lemma {:induction false} SetIsWord()
    ensures WellFormed(Fixed(SET))
  {
  }

  lemma {:induction false} NameIsWord()
    ensures WellFormed(Shape(IDENTIFIER, "a")) && WellFormed(Fixed(LPAR))
  {
  }

  predicate ShortBits(bits: seq<Bit>, n: nat) {
    forall k :: 0 <= k < |bits| ==> |bits[k].shape.text| <= n
  }

  lemma {:induction false} TightCutShort()
    ensures ShortBits(TIGHT_CUT, 10)
  {
  }

  lemma {:induction false} SameTokens()
    ensures BitShapes(Bits(TO_FIELD)) == BitShapes(TIGHT_CUT)
  {
  }

  /** The token of x ends, with its type, in front of the rune that y starts with. */
  predicate Apart(x: Bit, y: Bit) {
    y.shape.text != "" &&
    var next := if y.gap then " " else [y.shape.text[0]];
    Ends(x.shape, next) && Relexed(x.shape, next) == x.shape.typ
  }

  lemma {:induction false} ApartBits(bits: seq<Bit>)
    requires AllWellFormed(bits)
    requires forall k :: 0 <= k < |bits| - 1 ==> Apart(bits[k], bits[k + 1])
    requires bits != [] ==> bits[|bits| - 1].shape.typ != IDENTIFIER
    ensures Separated(bits) && Relex(bits) == BitShapes(bits)
  {
    hide WellFormed, BitShapes, Apart;
    if bits == [] {
      NothingIsSafe();
    } else {
      var rest := bits[1..];
      forall k | 0 <= k < |rest| - 1
        ensures Apart(rest[k], rest[k + 1])
      {
        assert Apart(bits[k + 1], bits[k + 1 + 1]);
      }
      ApartBits(rest);
      NextRune(bits);
      ConsShapes(bits);
      ApartHead(bits);
    }
  }

  lemma {:induction false} ApartHead(bits: seq<Bit>)
    requires bits != [] && AllWellFormed(bits)
    requires 1 < |bits| ==> Apart(bits[0], bits[1])
    requires |bits| == 1 ==> bits[0].shape.typ != IDENTIFIER
    ensures
      var next := Print(bits[1..]);
      Ends(bits[0].shape, next) && Relexed(bits[0].shape, next) == bits[0].shape.typ
  {
  }

  lemma {:induction false} TightCutApart()
    ensures forall k :: 0 <= k < |TIGHT_CUT| - 1 ==> Apart(TIGHT_CUT[k], TIGHT_CUT[k + 1])
  {
    hide WellFormed;
    TightCutFormed();
  }

  lemma {:induction false} SameShapesFormed(a: seq<Bit>, b: seq<Bit>)
    requires BitShapes(a) == BitShapes(b) && AllWellFormed(b)
    ensures AllWellFormed(a) && |a| == |b|
    ensures forall n: nat :: ShortBits(b, n) ==> ShortBits(a, n)
  {
    hide WellFormed;
    assert |a| == |BitShapes(a)| == |b|;
    forall k | 0 <= k < |a|
      ensures a[k].shape == b[k].shape
    {
      assert BitShapes(a)[k] == a[k].shape && BitShapes(b)[k] == b[k].shape;
    }
  }

  lemma {:induction false} ToFieldOk(eng: Engine)
    ensures InScope(TO_FIELD, NO_SCOPE) && LiteralsOk(TO_FIELD, eng)
    ensures ScriptInScope([TO_FIELD], NO_SCOPE, eng)
    ensures AfterAll([TO_FIELD], NO_SCOPE) == After(TO_FIELD, NO_SCOPE) == NO_SCOPE
  {
  }

  lemma {:induction false} PrintLength(bits: seq<Bit>, n: nat)
    requires ShortBits(bits, n)
    ensures |Print(bits)| <= |bits| * (n + 1)
  {
    if bits != [] {
      assert ShortBits(bits[1..], n);
      PrintLength(bits[1..], n);
    }
  }

  lemma {:induction false} TightCutScript()
    ensures
      var lines := [Line(TO_FIELD, false, true)];
      && LinesOk(lines) && Stmts(lines) == [TO_FIELD]
      && ScriptShapes(lines) == BitShapes(TIGHT_CUT) + [Fixed(EOF)]
  {
    hide StmtThen, Bits, BitShapes, TIGHT_CUT, Word;
    SameTokens();
    StmtShapes(TO_FIELD, [Fixed(EOF)]);
    assert Kw(EOF, []) == [Fixed(EOF)];
  }

  /** A concrete text whose statement does not survive: the field is called "to", and the canonical text does
      not parse at all. */
  lemma {:induction false} KeywordFieldFails(eng: Engine)
    ensures ReadScript(Shapes(Lex(Print(TIGHT_CUT), 255)), NO_SCOPE, eng) == Done([TO_FIELD], NO_SCOPE)
    ensures ReadScript(Shapes(Lex(Text(TO_FIELD), 255)), NO_SCOPE, eng).Broken?
  {
    hide *;
    TightCutFormed();
    TightCutShort();
    TightCutApart();
    SameTokens();
    assert TIGHT_CUT[7].shape.typ != IDENTIFIER by { LastOfTightCut(); }
    ApartBits(TIGHT_CUT);
    PrintLength(TIGHT_CUT, 10);
    WideWindowFits(Print(TIGHT_CUT), 255);
    LexPrinted(TIGHT_CUT, 255);
    TightCutScript();
    ToFieldOk(eng);
    var lines := [Line(TO_FIELD, false, true)];
    ScriptReads(lines, NO_SCOPE, eng);
    ToFieldBreaks(eng);
  }

  /** The tokens behind their relexing: a name that does not spell a keyword stays one. */
  lemma {:induction false} RelexAt(bits: seq<Bit>, k: nat)
    requires k < |bits|
    ensures Relex(bits)[k] == Shape(Relexed(bits[k].shape, Print(bits[k + 1..])), bits[k].shape.text)
  {
    hide Relexed, Print;
    if 0 < k {
      RelexAt(bits[1..], k - 1);
      assert bits[1..][k..] == bits[k + 1..];
    }
  }

  lemma {:induction false} ToFieldRelexed()
    ensures
      var xs := Relex(Bits(TO_FIELD));
      && |xs| == 8 && xs[0].typ == CUT && xs[1] == Shape(IDENTIFIER, "a") && xs[2].typ == SET && xs[3].typ == LPAR
      && xs[4].typ == TO
  {
    hide Relex, Word, Print, Bits, KeywordType, TO_FIELD;
    var bits := Bits(TO_FIELD);
    ToFieldBits();
    SpellingOfTo();
    RelexAt(bits, 0);
    RelexAt(bits, 1);
    RelexAt(bits, 2);
    RelexAt(bits, 3);
    RelexAt(bits, 4);
    assert Print(bits[5..])[0] == ' ' by { GapFirst(bits[5..]); }
    assert !IsWordRune(' ');
  }

  lemma {:induction false} SpellingOfTo()
    ensures KeywordType("a") == IDENTIFIER && KeywordType("to") == TO
  {
  }

  lemma {:induction false} ToFieldBits()
    ensures
      var bits := Bits(TO_FIELD);
      && |bits| == 8 && bits[0] == Glued(CUT) && bits[1] == Id("a") && bits[2] == Spc(SET) && bits[3] == Spc(LPAR)
      && bits[4].shape == Shape(IDENTIFIER, "to") && bits[5] == Spc(EQ)
  {
    hide Word;
  }

  lemma {:induction false} GapFirst(bits: seq<Bit>)
    requires bits != [] && bits[0].gap
    ensures Print(bits) != "" && Print(bits)[0] == ' '
  {
  }

  /** A keyword is no name of a field. */
  lemma {:induction false} KeywordIsNoField(xs: Input, eng: Engine)
    requires 5 < |xs| && xs[0].typ == CUT && xs[1].typ == IDENTIFIER && xs[2].typ == SET && xs[3].typ == LPAR
    requires xs[4].typ == TO
    ensures ReadScript(xs, NO_SCOPE, eng).Broken?
  {
    hide ReadFieldSet, ReadCutHead;
    PlainCutHead(xs[1..], NO_SCOPE);
    assert xs[1..][1..] == xs[2..];
    FieldSetMissing(xs[2..], NO_SCOPE);
    assert ReadCutStmt(xs, NO_SCOPE).No?;
  }

  lemma {:induction false} PlainCutHead(xs: Input, sc: Scope)
    requires 2 < |xs| && xs[0].typ == IDENTIFIER && xs[0].text !in sc.consumed
    ensures ReadCutHead(xs, sc) == Ok((None, xs[0].text), xs[1..], sc)
  {
  }

  lemma {:induction false} FieldSetMissing(xs: Input, sc: Scope)
    requires 2 < |xs| && xs[0].typ == SET && xs[1].typ == LPAR && xs[2].typ == TO
    ensures ReadFieldSet(xs, sc).No?
  {
    hide ReadFields, ReadEol;
    assert xs[1..][1..] == xs[2..];
    FieldMissing(xs[2..], sc);
  }

  lemma {:induction false} FieldMissing(xs: Input, sc: Scope)
    requires xs != [] && xs[0].typ == TO
    ensures ReadFields(xs, sc).No?
  {
  }

  lemma {:induction false} ToFieldBreaks(eng: Engine)
    ensures ReadScript(Shapes(Lex(Text(TO_FIELD), 255)), NO_SCOPE, eng).Broken?
  {
    hide *;
    var bits := Bits(TO_FIELD);
    TextIs(TO_FIELD);
    TightCutFormed();
    TightCutShort();
    SameTokens();
    SameShapesFormed(bits, TIGHT_CUT);
    ToFieldOk(eng);
    StmtJoint(TO_FIELD, eng);
    TidyBits(bits);
    ToFieldRelexed();
    PrintLength(bits, 10);
    WideWindowFits(Print(bits), 255);
    LexPrinted(bits, 255);
    var xs := Relex(bits) + [Fixed(EOF)];
    KeywordIsNoField(xs, eng);
  }

  lemma {:induction false} LastOfTightCut()
    ensures |TIGHT_CUT| == 8 && TIGHT_CUT[7].shape.typ != IDENTIFIER
  {
  }
}
