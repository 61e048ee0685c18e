/** Commas behind the last argument, which the parser takes and the grammar does not have. */
module Commas {
  import opened Tokens
  import opened LexPrint
  import opened Syntax
  import opened Decode
  import opened ParseSpec
  import opened Grammar
  import opened RoundTrip

  predicate IsEnd(typ: TokenType) { typ.EOL? || typ.EOF? }

  /** A comma stands directly in front of the end of a line or of the text. */
  predicate CommaEnds(xs: Input) {
    exists k :: 0 <= k < |xs| - 1 && xs[k].typ.COMMA? && IsEnd(xs[k + 1].typ)
  }

  /** Behind every comma among the tokens of a statement stands one that does not end the line. */
  predicate NoneHangs(bits: seq<Bit>) {
    forall k :: 0 <= k < |bits| && bits[k].shape.typ.COMMA? ==>
      k + 1 < |bits| && !IsEnd(bits[k + 1].shape.typ)
  }

  lemma {:induction false} ConcatHangs(a: seq<Bit>, b: seq<Bit>)
    requires NoneHangs(a) && NoneHangs(b)
    ensures NoneHangs(a + b)
  {
  }

  lemma {:induction false} MoreArgsHang(args: seq<Shape>)
    requires AllArgs(args)
    ensures NoneHangs(MoreArgBits(args))
  {
    hide Word;
    if args != [] {
      assert AllArgs(args[1..]);
      MoreArgsHang(args[1..]);
      ConcatHangs([Glued(COMMA), Bit(true, args[0])], MoreArgBits(args[1..]));
    }
  }

  lemma {:induction false} ArgsHang(args: seq<Shape>)
    requires AllArgs(args)
    ensures NoneHangs(ArgBits(args))
  {
    hide MoreArgBits;
    if args != [] {
      assert AllArgs(args[1..]);
      MoreArgsHang(args[1..]);
      ConcatHangs([Bit(true, args[0])], MoreArgBits(args[1..]));
    }
  }

  lemma {:induction false} FieldsHang(fields: seq<(string, string)>, first: bool)
    ensures NoneHangs(FieldBits(fields, first))
  {
    hide Word;
    if fields != [] {
      var field := (if first then [] else [Glued(COMMA)])
        + [Bit(!first, Shape(IDENTIFIER, fields[0].0)), Spc(EQ), Bit(true, Shape(INT, fields[0].1))];
      FieldsHang(fields[1..], false);
      assert NoneHangs(field);
      ConcatHangs(field, FieldBits(fields[1..], false));
    }
  }

  lemma {:induction false} StmtHangs(s: Stmt, eng: Engine)
    requires LiteralsOk(s, eng)
    ensures NoneHangs(Bits(s))
  {
    hide Word, ArgBits, FieldBits, NoneHangs;
    match s
    case Source(id, q, c, args) => CallHangs(SourceHead(id), q, c, args, eng);
    case Sink(src, q, c, args) => CallHangs(SinkHead(src), q, c, args, eng);
    case AsyncSink(src, id, q, c, args) => CallHangs(AsyncHead(src, id), q, c, args, eng);
    case Cut(delimiter, src, fields) =>
      FieldsHang(fields, true);
      NoCommas(CutHead(delimiter, src));
      ConcatHangs(CutHead(delimiter, src), FieldBits(fields, true));
      NoCommas([Glued(RPAR)]);
      ConcatHangs(CutHead(delimiter, src) + FieldBits(fields, true), [Glued(RPAR)]);
    case Join(src, patterns) =>
      AllStrings(patterns);
      ArgsHang(StringShapes(patterns));
      NoCommas(JoinHead(src));
      ConcatHangs(JoinHead(src), ArgBits(StringShapes(patterns)));
    case _ => NoCommas(Bits(s));
  }

  lemma {:induction false} NoCommas(bits: seq<Bit>)
    requires forall k :: 0 <= k < |bits| ==> !bits[k].shape.typ.COMMA?
    ensures NoneHangs(bits)
  {
  }

  lemma {:induction false} CallHangs(head: seq<Bit>, q: string, c: string, args: seq<Shape>, eng: Engine)
    requires ArgsOk(args, eng) && forall k :: 0 <= k < |head| ==> !head[k].shape.typ.COMMA?
    ensures NoneHangs(head + ClassBits(q, c) + ArgBits(args))
  {
    hide Word, ArgBits, NoneHangs;
    ArgsHang(args);
    NoCommas(head + ClassBits(q, c));
    ConcatHangs(head + ClassBits(q, c), ArgBits(args));
  }

  lemma {:induction false} LinesHang(lines: seq<Line>, eng: Engine)
    requires AllLiteralsOk(lines, eng)
    ensures NoneHangs(LinesBits(lines))
  {
    hide Bits, LiteralsOk, NoneHangs, Word;
    if lines == [] {
      NoCommas([]);
    } else {
      LinesHang(lines[1..], eng);
      StmtHangs(lines[0].stmt, eng);
      NoCommas([Glued(EOL)]);
      ConcatHangs(Bits(lines[0].stmt), [Glued(EOL)]);
      ConcatHangs(LineBits(lines[0]), LinesBits(lines[1..]));
    }
  }

  /** What the grammar derives by itself has no such comma. */
  lemma {:induction false} NoTrailingNoCommaEnds(lines: seq<Line>, eng: Engine)
    requires LinesOk(lines) && NoTrailing(lines) && AllLiteralsOk(lines, eng) && AllCounted(lines)
    ensures !CommaEnds(ScriptShapes(lines))
  {
    hide LinesOk, NoTrailing, AllLiteralsOk, AllCounted, LinesBits, Word;
    LinesShapes(lines);
    LinesHang(lines, eng);
    var bits := LinesBits(lines);
    forall k | 0 <= k < |bits| && bits[k].shape.typ.COMMA?
      ensures !IsEnd((BitShapes(bits) + [Fixed(EOF)])[k + 1].typ)
    {
    }
  }

  /** A comma behind the last argument of a line is one. */
  lemma {:induction false} TrailingCommaEnds(lines: seq<Line>)
    requires LinesOk(lines) && AllCounted(lines) && !NoTrailing(lines)
    ensures CommaEnds(ScriptShapes(lines))
  {
    hide LineThen, LineOk, Counted, CommaEnds;
    var l := lines[0];
    var rest := if l.last then [] else ScriptShapes(lines[1..]);
    if l.trailing {
      LineCommaEnds(l, rest);
    } else {
      assert !NoTrailing(lines[1..]) by {
        var k :| 0 <= k < |lines| && lines[k].trailing;
        assert lines[1..][k - 1].trailing;
      }
      TrailingCommaEnds(lines[1..]);
      LineKeepsCommaEnds(l, rest);
    }
  }

  lemma {:induction false} LineCommaEnds(l: Line, rest: Input)
    requires LineOk(l) && Counted(l.stmt) && l.trailing
    ensures CommaEnds(LineThen(l, rest))
  {
    hide Bits, StmtThen, BitShapes, Word;
    var ending := Kw(COMMA, Kw(if l.last then EOF else EOL, rest));
    StmtShapes(l.stmt, ending);
    var n := |BitShapes(Bits(l.stmt))|;
    assert LineThen(l, rest)[n] == ending[0] && LineThen(l, rest)[n + 1] == ending[1];
  }

  lemma {:induction false} LineKeepsCommaEnds(l: Line, rest: Input)
    requires LineOk(l) && Counted(l.stmt) && CommaEnds(rest)
    ensures CommaEnds(LineThen(l, rest))
  {
    hide Bits, StmtThen, BitShapes, Word, CommaThen, Kw, CommaEnds;
    EndingTail(l, rest);
    var ending := CommaThen(l.trailing, Kw(if l.last then EOF else EOL, rest));
    var n := |ending| - |rest|;
    assert ending == ending[..n] + rest;
    KeepsCommaEnds(ending[..n], rest);
    if l.stmt.Blank? {
      BlankEnds(ending);
      KeepsCommaEnds([], ending);
    } else {
      StmtShapes(l.stmt, ending);
      KeepsCommaEnds(BitShapes(Bits(l.stmt)), ending);
    }
  }

  lemma {:induction false} KeepsCommaEnds(p: Input, xs: Input)
    requires CommaEnds(xs)
    ensures CommaEnds(p + xs)
  {
    var k :| 0 <= k < |xs| - 1 && xs[k].typ.COMMA? && IsEnd(xs[k + 1].typ);
    assert (p + xs)[|p| + k] == xs[k] && (p + xs)[|p| + k + 1] == xs[k + 1];
  }

  /** The lines are in the grammar as it is written, and derive the tokens within the rules of scope. */
  ghost predicate DerivedAsWritten(lines: seq<Line>, xs: Input, sc: Scope, eng: Engine) {
    LinesOk(lines) && NoTrailing(lines) && ScriptShapes(lines) == xs && ScriptInScope(Stmts(lines), sc, eng)
  }

  /** Of the scripts that parse, the grammar as it is written derives exactly those in which no comma stands
      directly in front of the end of a line or of the text. */
  lemma {:induction false} WrittenGrammarIff(xs: Input, sc: Scope, eng: Engine)
    requires Ready(xs) && ReadScript(xs, sc, eng).Done?
    ensures (exists lines :: DerivedAsWritten(lines, xs, sc, eng)) <==> !CommaEnds(xs)
  {
    hide Ready, ReadScript, LinesOk, NoTrailing, ScriptShapes, ScriptInScope, CommaEnds, AllCounted, AllLiteralsOk;
    if lines :| DerivedAsWritten(lines, xs, sc, eng) {
      ScriptParts(lines, sc, eng);
      NoTrailingNoCommaEnds(lines, eng);
    }
    if !CommaEnds(xs) {
      var lines := ScriptTakes(xs, sc, eng);
      ScriptParts(lines, sc, eng);
      if !NoTrailing(lines) {
        TrailingCommaEnds(lines);
      }
      assert DerivedAsWritten(lines, xs, sc, eng);
    }
  }
}
