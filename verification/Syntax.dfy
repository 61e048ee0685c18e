/** Statements of the language: their tokens, their canonical text and the rules of scope. */
module Syntax {
  import opened Options
  import opened Tokens
  import opened LexSpec
  import opened LexPrint

  /** A statement, with its literals as they are written. */
  datatype Stmt =
    | Blank
    | Source(id: string, qualifier: string, class_: string, args: seq<Shape>)
    | Sink(src: string, qualifier: string, class_: string, args: seq<Shape>)
    | AsyncSink(src: string, id: string, qualifier: string, class_: string, args: seq<Shape>)
    | Merge(srcA: string, srcB: string, id: string)
    | Dupe(src: string, targetA: string, targetB: string)
    | Append(src: string, target: string)
    | Cut(delimiter: Option<string>, src: string, fields: seq<(string, string)>)
    | Fanout(src: string, targetA: string, targetB: string)
    | Tag(src: string, tag: string)
    | Join(src: string, patterns: seq<string>)

  // ----- Tokens of a statement, as they are printed -------------------------------------------

  /** How the tokens that always look the same are written; "" for the others. */
  function Word(typ: TokenType): string {
    match typ
    case EOL => "\n"
    case LPAR => "("
    case RPAR => ")"
    case EQ => "="
    case COMMA => ","
    case DOT => "."
    case AS => "as"
    case AND => "and"
    case TO => "to"
    case SOURCE => "source"
    case VAR => "var"
    case SINK => "sink"
    case ASYNC => "async"
    case MERGE => "merge"
    case DUPE => "dupe"
    case APPEND => "append"
    case CUT => "cut"
    case SET => "set"
    case WITH => "with"
    case FANOUT => "fanout"
    case TAG => "tag"
    case JOIN => "join"
    case _ => ""
  }

  predicate IsLiteral(typ: TokenType) {
    typ.STRING? || typ.NUMBER? || typ.INT? || typ.IDENTIFIER? || typ.ERR?
  }

  /** A token whose type fixes its text has that text. */
  predicate Spelled(x: Shape) {
    IsLiteral(x.typ) || x.text == Word(x.typ)
  }

  function Fixed(typ: TokenType): Shape { Shape(typ, Word(typ)) }

  function Spc(typ: TokenType): Bit { Bit(true, Fixed(typ)) }

  function Glued(typ: TokenType): Bit { Bit(false, Fixed(typ)) }

  function Id(id: string): Bit { Bit(true, Shape(IDENTIFIER, id)) }

  function ClassBits(qualifier: string, class_: string): seq<Bit> {
    [Id(qualifier), Glued(DOT), Bit(false, Shape(IDENTIFIER, class_))]
  }

  /** Arguments behind the first one. */
  function MoreArgBits(args: seq<Shape>): seq<Bit> {
    if args == [] then [] else [Glued(COMMA), Bit(true, args[0])] + MoreArgBits(args[1..])
  }

  function ArgBits(args: seq<Shape>): seq<Bit> {
    if args == [] then [] else [Bit(true, args[0])] + MoreArgBits(args[1..])
  }

  /** Field settings, the first of them without a space in front of it. */
  function FieldBits(fields: seq<(string, string)>, first: bool): seq<Bit> {
    if fields == [] then []
    else
      (if first then [] else [Glued(COMMA)])
      + [Bit(!first, Shape(IDENTIFIER, fields[0].0)), Spc(EQ), Bit(true, Shape(INT, fields[0].1))]
      + FieldBits(fields[1..], false)
  }

  function StringShapes(texts: seq<string>): (r: seq<Shape>)
    ensures |r| == |texts|
  {
    if texts == [] then [] else [Shape(STRING, texts[0])] + StringShapes(texts[1..])
  }

  function TextsIn(xs: seq<Shape>): (ts: seq<string>)
    ensures |ts| == |xs|
  {
    if xs == [] then [] else [xs[0].text] + TextsIn(xs[1..])
  }

  lemma {:induction false} TextsOfStrings(patterns: seq<string>)
    ensures TextsIn(StringShapes(patterns)) == patterns
  {
    if patterns != [] {
      TextsOfStrings(patterns[1..]);
    }
  }

  function CutHead(delimiter: Option<string>, src: string): seq<Bit> {
    [Glued(CUT)]
    + (if delimiter.None? then [] else [Spc(WITH), Bit(true, Shape(STRING, delimiter.value))])
    + [Id(src), Spc(SET), Spc(LPAR)]
  }

  function Bits(s: Stmt): seq<Bit> {
    match s
    case Blank => [Glued(EOL)]
    case Source(id, q, c, args) => [Glued(SOURCE), Spc(AS), Id(id)] + ClassBits(q, c) + ArgBits(args)
    case Sink(src, q, c, args) => [Glued(SINK), Id(src), Spc(TO)] + ClassBits(q, c) + ArgBits(args)
    case AsyncSink(src, id, q, c, args) =>
      [Glued(SINK), Id(src), Spc(ASYNC), Spc(AS), Id(id), Spc(TO)] + ClassBits(q, c) + ArgBits(args)
    case Merge(a, b, id) => [Glued(MERGE), Id(a), Spc(AND), Id(b), Spc(AS), Id(id)]
    case Dupe(src, a, b) => [Glued(DUPE), Id(src), Spc(AS), Id(a), Spc(AND), Id(b)]
    case Append(src, target) => [Glued(APPEND), Id(src), Spc(TO), Id(target)]
    case Cut(delimiter, src, fields) =>
      CutHead(delimiter, src) + FieldBits(fields, true) + [Glued(RPAR)]
    case Fanout(src, a, b) => [Glued(FANOUT), Id(src), Spc(AS), Id(a), Spc(AND), Id(b)]
    case Tag(src, tag) => [Glued(TAG), Id(src), Spc(WITH), Bit(true, Shape(STRING, tag))]
    case Join(src, patterns) => [Glued(JOIN), Id(src), Spc(WITH)] + ArgBits(StringShapes(patterns))
  }

  /** The canonical text of a statement. */
  function Text(s: Stmt): string { Print(Bits(s)) }

  // ----- Rules of scope ----------------------------------------------------------------------

  datatype Scope = Scope(sources: set<string>, consumed: set<string>, sinks: set<string>)

  const NO_SCOPE := Scope({}, {}, {})

  predicate Live(id: string, sc: Scope) { id in sc.sources && id !in sc.consumed }

  predicate ArgsDefined(args: seq<Shape>, known: set<string>) {
    forall k :: 0 <= k < |args| && args[k].typ == IDENTIFIER ==> args[k].text in known
  }

  /** What the static checks of a statement ask of the scope before it. */
  predicate InScope(s: Stmt, sc: Scope) {
    match s
    case Blank => true
    case Source(id, _, _, args) =>
      id !in sc.sources && ArgsDefined(args, sc.sources + {id} + sc.sinks)
    case Sink(src, _, _, args) =>
      Live(src, sc) && ArgsDefined(args, sc.sources + sc.sinks)
    case AsyncSink(src, id, _, _, args) =>
      && Live(src, sc) && id !in sc.sources && id !in sc.sinks
      && ArgsDefined(args, sc.sources + sc.sinks + {id})
    case Merge(a, b, id) => Live(a, sc) && Live(b, sc) && a != b && id !in sc.sources
    case Dupe(src, a, b) => Live(src, sc) && a !in sc.sources && b !in sc.sources && a != b
    case Append(src, target) => Live(src, sc) && target in sc.sources
    case Cut(_, src, _) => src !in sc.consumed
    case Fanout(src, a, b) => Live(src, sc) && a !in sc.sources && b !in sc.sources && a != b
    case Tag(src, _) => Live(src, sc)
    case Join(src, _) => Live(src, sc)
  }

  /** The scope behind a statement. */
  function After(s: Stmt, sc: Scope): Scope {
    match s
    case Source(id, _, _, _) => sc.(sources := sc.sources + {id})
    case Sink(src, _, _, _) => sc.(consumed := sc.consumed + {src})
    case AsyncSink(src, id, _, _, _) => sc.(consumed := sc.consumed + {src}, sinks := sc.sinks + {id})
    case Merge(a, b, id) => sc.(consumed := sc.consumed + {a, b}, sources := sc.sources + {id})
    case Dupe(src, a, b) => sc.(consumed := sc.consumed + {src}, sources := sc.sources + {a, b})
    case Append(src, _) => sc.(consumed := sc.consumed + {src})
    case Fanout(src, a, b) => sc.(consumed := sc.consumed + {src}, sources := sc.sources + {a, b})
    case _ => sc
  }

  // ----- Literals ----------------------------------------------------------------------------

  /** Which decimals Go's ParseFloat takes, and which patterns its regexp package compiles. */
  datatype Engine = Engine(floatOk: string -> bool, patternOk: string -> bool)

  const MIN_INT64 := -0x8000_0000_0000_0000
  const MAX_INT64 := 0x7fff_ffff_ffff_ffff

  function Digits(s: string): int {
    if s == "" then 0 else 10 * Digits(s[..|s| - 1]) + (s[|s| - 1] as int - '0' as int)
  }

  function IntValue(s: string): int {
    if s != "" && s[0] == '-' then -Digits(s[1..]) else Digits(s)
  }

  /** ParseInt in base 10 and 64 bits takes the text. */
  predicate IntOk(s: string) {
    s != "" && IsInt(s) && MIN_INT64 <= IntValue(s) <= MAX_INT64
  }

  function TrimSuffix(s: string, c: char): string {
    if s != "" && s[|s| - 1] == c then s[..|s| - 1] else s
  }

  function TrimPrefix(s: string, c: char): string {
    if s != "" && s[0] == c then s[1..] else s
  }

  /** Replaces every backslash that is followed by c, from left to right. */
  function ReplaceEscape(s: string, c: char, to: char): string {
    if |s| < 2 then s
    else if s[0] == '\\' && s[1] == c then [to] + ReplaceEscape(s[2..], c, to)
    else [s[0]] + ReplaceEscape(s[1..], c, to)
  }

  /** The value of a string token. */
  function Escape(s: string): string {
    var t := TrimPrefix(TrimSuffix(s, '"'), '"');
    var t := ReplaceEscape(t, 'r', '\r');
    var t := ReplaceEscape(t, 'n', '\n');
    var t := ReplaceEscape(t, 't', '\t');
    var t := ReplaceEscape(t, '"', '"');
    ReplaceEscape(t, '\\', '\\')
  }

  predicate IsArg(typ: TokenType) {
    typ.STRING? || typ.NUMBER? || typ.INT? || typ.IDENTIFIER?
  }

  predicate ArgOk(x: Shape, eng: Engine) {
    && IsArg(x.typ)
    && (x.typ.NUMBER? ==> eng.floatOk(x.text))
    && (x.typ.INT? ==> IntOk(x.text))
  }

  predicate ArgsOk(args: seq<Shape>, eng: Engine) {
    forall k :: 0 <= k < |args| ==> ArgOk(args[k], eng)
  }

  predicate FieldsOk(fields: seq<(string, string)>) {
    forall k :: 0 <= k < |fields| ==> IntOk(fields[k].1)
  }

  predicate PatternsOk(patterns: seq<string>, eng: Engine) {
    forall k :: 0 <= k < |patterns| ==> eng.patternOk(Escape(patterns[k]))
  }

  /** The repeated parts have as many members as the grammar asks for, and every literal has a value. */
  predicate LiteralsOk(s: Stmt, eng: Engine) {
    match s
    case Source(_, _, _, args) => ArgsOk(args, eng)
    case Sink(_, _, _, args) => ArgsOk(args, eng)
    case AsyncSink(_, _, _, _, args) => ArgsOk(args, eng)
    case Cut(_, _, fields) => fields != [] && FieldsOk(fields)
    case Join(_, patterns) => patterns != [] && PatternsOk(patterns, eng)
    case _ => true
  }

  // ----- What the parser hands to the runtime -------------------------------------------------

  datatype Arg =
    | StringArg(text: string, value: string)
    | NumberArg(text: string)
    | IntArg(text: string, int_: int)
    | IdentifierArg(text: string)

  datatype Fields =
    | EolNode
    | SourceNode(id: string, qualifier: string, class_: string, args: seq<Arg>)
    | SinkNode(source: string, asyncType: bool, async: bool, id: string,
               qualifier: string, class_: string, args: seq<Arg>)
    | MergeNode(sourceA: string, sourceB: string, id: string)
    | DupeNode(source: string, targetA: string, targetB: string)
    | AppendNode(source: string, target: string)
    | CutNode(delimiter: string, source: string, fieldSets: map<string, int>)
    | FanoutNode(source: string, targetA: string, targetB: string)
    | TagNode(source: string, tag: string)
    | JoinNode(source: string, patterns: seq<string>)

  datatype Node = Node(text: string, fields: Fields)

  function ArgOf(x: Shape): Arg {
    match x.typ
    case STRING => StringArg(x.text, Escape(x.text))
    case NUMBER => NumberArg(x.text)
    case INT => IntArg(x.text, IntValue(x.text))
    case _ => IdentifierArg(x.text)
  }

  function ArgsOf(xs: seq<Shape>): (r: seq<Arg>)
    ensures |r| == |xs|
  {
    if xs == [] then [] else [ArgOf(xs[0])] + ArgsOf(xs[1..])
  }

  /** Later settings of a field override earlier ones. */
  function FieldSets(fields: seq<(string, string)>): map<string, int> {
    if fields == [] then map[]
    else
      var last := fields[|fields| - 1];
      FieldSets(fields[..|fields| - 1])[last.0 := IntValue(last.1)]
  }

  function Escapes(texts: seq<string>): (r: seq<string>)
    ensures |r| == |texts|
  {
    if texts == [] then [] else [Escape(texts[0])] + Escapes(texts[1..])
  }

  function FieldsOf(s: Stmt): Fields {
    match s
    case Blank => EolNode
    case Source(id, q, c, args) => SourceNode(id, q, c, ArgsOf(args))
    case Sink(src, q, c, args) => SinkNode(src, false, false, "", q, c, ArgsOf(args))
    // The parser gives the node its own AST type but leaves the Async flag unset.
    case AsyncSink(src, id, q, c, args) => SinkNode(src, true, false, id, q, c, ArgsOf(args))
    case Merge(a, b, id) => MergeNode(a, b, id)
    case Dupe(src, a, b) => DupeNode(src, a, b)
    case Append(src, target) => AppendNode(src, target)
    case Cut(delimiter, src, fields) =>
      CutNode(if delimiter.None? then " " else Escape(delimiter.value), src, FieldSets(fields))
    case Fanout(src, a, b) => FanoutNode(src, a, b)
    case Tag(src, tag) => TagNode(src, Escape(tag))
    case Join(src, patterns) => JoinNode(src, Escapes(patterns))
  }

  function NodeOf(s: Stmt): Node { Node(Text(s), FieldsOf(s)) }

  function Nodes(stmts: seq<Stmt>): (nodes: seq<Node>)
    ensures |nodes| == |stmts|
  {
    if stmts == [] then [] else [NodeOf(stmts[0])] + Nodes(stmts[1..])
  }
}
