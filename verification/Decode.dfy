/** A statement can be read off the texts of its tokens: their types are not needed. */
module Decode {
  import opened Options
  import opened Runes
  import opened Tokens
  import opened LexSpec
  import opened LexPrint
  import opened Syntax

  function Texts(bits: seq<Bit>): (ts: seq<string>)
    ensures |ts| == |bits|
    ensures forall k :: 0 <= k < |bits| ==> ts[k] == bits[k].shape.text
  {
    if bits == [] then [] else [bits[0].shape.text] + Texts(bits[1..])
  }

  lemma {:induction false} TextsConcat(a: seq<Bit>, b: seq<Bit>)
    ensures Texts(a + b) == Texts(a) + Texts(b)
  {
  }

  predicate AllWellFormed(bits: seq<Bit>) {
    forall k :: 0 <= k < |bits| ==> WellFormed(bits[k].shape)
  }

  // ----- Arguments, settings and patterns ------------------------------------------------------

  /** The shape of an argument; its type shows in its first rune and, for numbers, in what follows it. */
  function ArgIn(text: string): Shape {
    Shape(
      if text == "" then IDENTIFIER
      else if text[0] == '"' then STRING
      else if text[0] == '-' || IsDigit(text[0]) then if IsInt(text) then INT else NUMBER
      else IDENTIFIER,
      text)
  }

  /** The arguments among texts that start with a comma. */
  function MoreArgsIn(ts: seq<string>): seq<Shape> {
    if |ts| < 2 then [] else [ArgIn(ts[1])] + MoreArgsIn(ts[2..])
  }

  function ArgsIn(ts: seq<string>): seq<Shape> {
    if ts == [] then [] else [ArgIn(ts[0])] + MoreArgsIn(ts[1..])
  }

  function FieldsIn(ts: seq<string>): seq<(string, string)> {
    if |ts| < 4 then [] else [(ts[0], ts[2])] + FieldsIn(ts[4..])
  }

  lemma {:induction false} ArgInIs(x: Shape)
    requires WellFormed(x) && IsArg(x.typ)
    ensures ArgIn(x.text) == x
  {
    hide Span, KeywordType;
    FirstRune(x);
  }

  lemma {:induction false} MoreArgsInIs(args: seq<Shape>)
    requires forall k :: 0 <= k < |args| ==> WellFormed(args[k]) && IsArg(args[k].typ)
    ensures MoreArgsIn(Texts(MoreArgBits(args))) == args
  {
    hide WellFormed, IsArg, ArgIn, Word;
    if args != [] {
      var head := [Glued(COMMA), Bit(true, args[0])];
      TextsConcat(head, MoreArgBits(args[1..]));
      assert Texts(MoreArgBits(args))[2..] == Texts(MoreArgBits(args[1..]));
      ArgInIs(args[0]);
      MoreArgsInIs(args[1..]);
    }
  }

  lemma {:induction false} ArgsInIs(args: seq<Shape>)
    requires forall k :: 0 <= k < |args| ==> WellFormed(args[k]) && IsArg(args[k].typ)
    ensures ArgsIn(Texts(ArgBits(args))) == args
  {
    hide WellFormed, IsArg, ArgIn, MoreArgBits, MoreArgsIn;
    if args != [] {
      TextsConcat([Bit(true, args[0])], MoreArgBits(args[1..]));
      assert Texts(ArgBits(args))[1..] == Texts(MoreArgBits(args[1..]));
      ArgInIs(args[0]);
      MoreArgsInIs(args[1..]);
    }
  }

  /** Arguments are among the tokens of a call. */
  lemma {:induction false} ArgsFormed(args: seq<Shape>)
    requires AllWellFormed(ArgBits(args))
    ensures forall k :: 0 <= k < |args| ==> WellFormed(args[k])
  {
    hide WellFormed, MoreArgBits;
    if args != [] {
      var bits := ArgBits(args);
      assert bits[0].shape == args[0];
      assert AllWellFormed(MoreArgBits(args[1..])) by {
        assert forall k :: 0 <= k < |MoreArgBits(args[1..])| ==> MoreArgBits(args[1..])[k] == bits[k + 1];
      }
      MoreArgsFormed(args[1..]);
    }
  }

  lemma {:induction false} MoreArgsFormed(args: seq<Shape>)
    requires AllWellFormed(MoreArgBits(args))
    ensures forall k :: 0 <= k < |args| ==> WellFormed(args[k])
  {
    hide WellFormed, Word;
    if args != [] {
      var bits, more := MoreArgBits(args), MoreArgBits(args[1..]);
      assert bits[1].shape == args[0];
      assert forall k :: 0 <= k < |more| ==> more[k] == bits[k + 2];
      MoreArgsFormed(args[1..]);
    }
  }

  /** One setting, and what stands behind it. */
  function FieldThen(first: bool, id: string, num: string, behind: seq<Bit>): seq<Bit> {
    (if first then [] else [Glued(COMMA)])
    + [Bit(!first, Shape(IDENTIFIER, id)), Spc(EQ), Bit(true, Shape(INT, num))] + behind
  }

  lemma {:induction false} FieldThenTexts(first: bool, id: string, num: string, behind: seq<Bit>)
    ensures
      var ts := Texts(FieldThen(first, id, num, behind));
      var us := if first then ts else ts[1..];
      |us| == 3 + |behind| && us[0] == id && us[2] == num && us[3..] == Texts(behind)
  {
    hide Word;
    TextsConcat((if first then [] else [Glued(COMMA)])
                + [Bit(!first, Shape(IDENTIFIER, id)), Spc(EQ), Bit(true, Shape(INT, num))], behind);
  }

  lemma {:induction false} FieldsInIs(fields: seq<(string, string)>, first: bool)
    requires fields != []
    ensures
      var ts := Texts(FieldBits(fields, first) + [Glued(RPAR)]);
      FieldsIn(if first then ts else ts[1..]) == fields
  {
    hide Word, Texts;
    var close := [Glued(RPAR)];
    var behind := FieldBits(fields[1..], false) + close;
    var (id, num) := fields[0];
    assert FieldBits(fields, first) + close == FieldThen(first, id, num, behind);
    FieldThenTexts(first, id, num, behind);
    hide FieldThen;
    var ts := Texts(FieldBits(fields, first) + close);
    var us := if first then ts else ts[1..];
    if 1 < |fields| {
      FieldsInIs(fields[1..], false);
      assert us[4..] == Texts(behind)[1..];
    } else {
      assert behind == close;
      assert us[4..] == [];
    }
  }

  lemma {:induction false} PatternsInIs(patterns: seq<string>)
    requires AllWellFormed(ArgBits(StringShapes(patterns)))
    ensures TextsIn(ArgsIn(Texts(ArgBits(StringShapes(patterns))))) == patterns
  {
    hide WellFormed, ArgBits, ArgsIn;
    ArgsFormed(StringShapes(patterns));
    AllStringArgs(patterns);
    ArgsInIs(StringShapes(patterns));
    TextsOfStrings(patterns);
  }

  lemma {:induction false} AllStringArgs(patterns: seq<string>)
    ensures forall k :: 0 <= k < |patterns| ==> IsArg(StringShapes(patterns)[k].typ)
  {
    if patterns != [] {
      AllStringArgs(patterns[1..]);
    }
  }

  // ----- Statements ----------------------------------------------------------------------------

  /** The statement that some texts are those of. */
  function StmtIn(ts: seq<string>): Stmt {
    if ts == [] then Blank
    else
      match KeywordType(ts[0])
      case SOURCE => if |ts| < 6 then Blank else Source(ts[2], ts[3], ts[5], ArgsIn(ts[6..]))
      case SINK => SinkIn(ts)
      case MERGE => if |ts| < 6 then Blank else Merge(ts[1], ts[3], ts[5])
      case DUPE => if |ts| < 6 then Blank else Dupe(ts[1], ts[3], ts[5])
      case APPEND => if |ts| < 4 then Blank else Append(ts[1], ts[3])
      case CUT => CutIn(ts)
      case FANOUT => if |ts| < 6 then Blank else Fanout(ts[1], ts[3], ts[5])
      case TAG => if |ts| < 4 then Blank else Tag(ts[1], ts[3])
      case JOIN => if |ts| < 3 then Blank else Join(ts[1], TextsIn(ArgsIn(ts[3..])))
      case _ => Blank
  }

  function SinkIn(ts: seq<string>): Stmt {
    if |ts| < 6 then Blank
    else if KeywordType(ts[2]) == TO then Sink(ts[1], ts[3], ts[5], ArgsIn(ts[6..]))
    else if |ts| < 9 then Blank
    else AsyncSink(ts[1], ts[4], ts[6], ts[8], ArgsIn(ts[9..]))
  }

  /** Behind a delimiter stand with and a string; with may also be the name of the source. */
  function CutIn(ts: seq<string>): Stmt {
    if |ts| < 4 then Blank
    else if ts[2] != "" && ts[2][0] == '"' then
      if |ts| < 6 then Blank else Cut(Some(ts[2]), ts[3], FieldsIn(ts[6..]))
    else Cut(None, ts[1], FieldsIn(ts[4..]))
  }

  ghost predicate Counts(s: Stmt) {
    match s
    case Source(_, _, _, args) => forall k :: 0 <= k < |args| ==> IsArg(args[k].typ)
    case Sink(_, _, _, args) => forall k :: 0 <= k < |args| ==> IsArg(args[k].typ)
    case AsyncSink(_, _, _, _, args) => forall k :: 0 <= k < |args| ==> IsArg(args[k].typ)
    case Cut(_, _, fields) => fields != []
    case _ => true
  }

  lemma {:induction false} KeywordWords()
    ensures forall typ :: typ in {SOURCE, SINK, MERGE, DUPE, APPEND, CUT, FANOUT, TAG, JOIN, TO, ASYNC} ==>
      KeywordType(Word(typ)) == typ
    ensures KeywordType(Word(EOL)) == IDENTIFIER && Word(EOL) != ""
  {
  }

  /** The texts behind a head. */
  lemma {:induction false} Behind(head: seq<Bit>, tail: seq<Bit>)
    requires AllWellFormed(head + tail)
    ensures Texts(head + tail)[|head|..] == Texts(tail) && AllWellFormed(tail)
    ensures forall k :: 0 <= k < |head| ==> Texts(head + tail)[k] == head[k].shape.text
  {
    hide WellFormed;
    TextsConcat(head, tail);
    forall k | 0 <= k < |tail|
      ensures WellFormed(tail[k].shape)
    {
      assert (head + tail)[|head| + k] == tail[k];
    }
  }

  lemma {:induction false} SourceIs(s: Stmt)
    requires s.Source? && AllWellFormed(Bits(s)) && Counts(s)
    ensures StmtIn(Texts(Bits(s))) == s
  {
    hide WellFormed, Word, KeywordType, ArgBits, ArgsIn, IsArg, Texts, AllWellFormed;
    KeywordWords();
    CallTail([Glued(SOURCE), Spc(AS), Id(s.id)] + ClassBits(s.qualifier, s.class_), s.args);
  }

  lemma {:induction false} SinkIs(s: Stmt)
    requires s.Sink? && AllWellFormed(Bits(s)) && Counts(s)
    ensures StmtIn(Texts(Bits(s))) == s
  {
    hide WellFormed, Word, KeywordType, ArgBits, ArgsIn, IsArg, Texts, AllWellFormed;
    KeywordWords();
    CallTail([Glued(SINK), Id(s.src), Spc(TO)] + ClassBits(s.qualifier, s.class_), s.args);
  }

  lemma {:induction false} AsyncSinkIs(s: Stmt)
    requires s.AsyncSink? && AllWellFormed(Bits(s)) && Counts(s)
    ensures StmtIn(Texts(Bits(s))) == s
  {
    hide WellFormed, Word, KeywordType, ArgBits, ArgsIn, IsArg, Texts, AllWellFormed;
    KeywordWords();
    var head := [Glued(SINK), Id(s.src), Spc(ASYNC), Spc(AS), Id(s.id), Spc(TO)];
    CallTail(head + ClassBits(s.qualifier, s.class_), s.args);
  }

  lemma {:induction false} MergeIs(s: Stmt)
    requires s.Merge?
    ensures StmtIn(Texts(Bits(s))) == s
  {
    hide Word, KeywordType, Texts;
    KeywordWords();
  }

  lemma {:induction false} SplitIs(s: Stmt)
    requires s.Dupe? || s.Fanout?
    ensures StmtIn(Texts(Bits(s))) == s
  {
    hide Word, KeywordType, Texts;
    KeywordWords();
    match s
    case Dupe(_, _, _) =>
    case Fanout(_, _, _) =>
  }

  lemma {:induction false} ShortIs(s: Stmt)
    requires s.Append? || s.Tag? || s.Blank?
    ensures StmtIn(Texts(Bits(s))) == s
  {
    hide Word, KeywordType, Texts;
    KeywordWords();
    match s
    case Append(_, _) =>
    case Tag(_, _) =>
    case Blank =>
  }

  lemma {:induction false} CallTail(head: seq<Bit>, args: seq<Shape>)
    requires AllWellFormed(head + ArgBits(args)) && forall k :: 0 <= k < |args| ==> IsArg(args[k].typ)
    ensures ArgsIn(Texts(head + ArgBits(args))[|head|..]) == args
    ensures forall k :: 0 <= k < |head| ==> Texts(head + ArgBits(args))[k] == head[k].shape.text
  {
    hide WellFormed, ArgBits, ArgsIn, IsArg, Texts, AllWellFormed;
    Behind(head, ArgBits(args));
    ArgsFormed(args);
    ArgsInIs(args);
  }

  lemma {:induction false} CutIs(s: Stmt)
    requires s.Cut? && s.fields != [] && AllWellFormed(Bits(s))
    ensures StmtIn(Texts(Bits(s))) == s
  {
    hide WellFormed, Word, KeywordType, FieldBits, FieldsIn, Texts, AllWellFormed, CutHead, StmtIn, CutIn;
    var Cut(delimiter, src, fields) := s;
    var head, list := CutHead(delimiter, src), FieldBits(fields, true) + [Glued(RPAR)];
    assert Bits(s) == head + list;
    Behind(head, list);
    FieldsInIs(fields, true);
    CutHeadTexts(delimiter, src, head, list);
    CutTexts(Texts(head + list), |head|, s);
  }

  lemma {:induction false} CutTexts(ts: seq<string>, n: nat, s: Stmt)
    requires s.Cut? && n == (if s.delimiter.None? then 4 else 6) && n < |ts|
    requires ts[0] == Word(CUT) && FieldsIn(ts[n..]) == s.fields
    requires s.delimiter.None? ==> ts[1] == s.src && ts[2] != "" && ts[2][0] != '"'
    requires s.delimiter.Some? ==> ts[2] == s.delimiter.value != "" && ts[2][0] == '"' && ts[3] == s.src
    ensures StmtIn(ts) == s
  {
    hide Word, KeywordType, FieldsIn;
    KeywordWords();
  }

  lemma {:induction false} CutHeadTexts(delimiter: Option<string>, src: string, head: seq<Bit>, list: seq<Bit>)
    requires head == CutHead(delimiter, src) && AllWellFormed(head + list)
    ensures |head| == if delimiter.None? then 4 else 6
    ensures head[0].shape.text == Word(CUT)
    ensures delimiter.None? ==>
      && head[1].shape.text == src && head[2].shape.text == Word(SET) != "" && Word(SET)[0] != '"'
    ensures delimiter.Some? ==>
      && head[2].shape.text == delimiter.value != "" && delimiter.value[0] == '"' && head[3].shape.text == src
  {
    if delimiter.Some? {
      assert (head + list)[2] == Bit(true, Shape(STRING, delimiter.value));
    }
  }

  lemma {:induction false} JoinIs(s: Stmt)
    requires s.Join? && AllWellFormed(Bits(s))
    ensures StmtIn(Texts(Bits(s))) == s
  {
    hide WellFormed, Word, KeywordType, ArgBits, ArgsIn, Texts, TextsIn, AllWellFormed;
    KeywordWords();
    var Join(src, patterns) := s;
    Behind([Glued(JOIN), Id(src), Spc(WITH)], ArgBits(StringShapes(patterns)));
    PatternsInIs(patterns);
  }

  /** Every statement is the one that its texts tell. */
  lemma {:induction false} StmtInIs(s: Stmt)
    requires AllWellFormed(Bits(s)) && Counts(s)
    ensures StmtIn(Texts(Bits(s))) == s
  {
    hide Bits, AllWellFormed, Texts, StmtIn, Counts;
    match s
    case Source(_, _, _, _) => SourceIs(s);
    case Sink(_, _, _, _) => SinkIs(s);
    case AsyncSink(_, _, _, _, _) => AsyncSinkIs(s);
    case Cut(_, _, _) => CutCounts(s); CutIs(s);
    case Join(_, _) => JoinIs(s);
    case Append(_, _) => ShortIs(s);
    case Tag(_, _) => ShortIs(s);
    case Blank => ShortIs(s);
    case Merge(_, _, _) => MergeIs(s);
    case _ => SplitIs(s);
  }

  lemma {:induction false} CutCounts(s: Stmt)
    requires s.Cut? && Counts(s)
    ensures s.fields != []
  {
  }
}
