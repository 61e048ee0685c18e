/** The grammar, and the theorem that the parser accepts exactly what it derives within the rules of scope. */
module Grammar {
  import opened Options
  import opened Tokens
  import opened LexPrint
  import opened Syntax
  import opened ParseSpec

  function BitShapes(bits: seq<Bit>): (r: seq<Shape>)
    ensures |r| == |bits|
  {
    seq(|bits|, i requires 0 <= i < |bits| => bits[i].shape)
  }

  // ----- Productions: the tokens of a part, followed by rest ------------------------------------

  type Input = seq<Shape>

  function One(typ: TokenType, text: string, rest: Input): Input { [Shape(typ, text)] + rest }

  function Kw(typ: TokenType, rest: Input): Input { [Fixed(typ)] + rest }

  function Ident(id: string, rest: Input): Input { One(IDENTIFIER, id, rest) }

  function ClassThen(qualifier: string, class_: string, rest: Input): Input {
    Ident(qualifier, Kw(DOT, Ident(class_, rest)))
  }

  /** Arguments, separated by commas; more says that the list goes on behind another argument. */
  function ArgsThen(args: seq<Shape>, more: bool, rest: Input): Input {
    if args == [] then rest
    else
      var list := [args[0]] + ArgsThen(args[1..], true, rest);
      if more then Kw(COMMA, list) else list
  }

  function FieldsThen(fields: seq<(string, string)>, rest: Input): Input {
    if fields == [] then rest
    else
      Ident(fields[0].0, Kw(EQ, One(INT, fields[0].1,
        if |fields| == 1 then rest else Kw(COMMA, FieldsThen(fields[1..], rest)))))
  }

  function PatternsThen(patterns: seq<string>, rest: Input): Input {
    if patterns == [] then rest
    else
      One(STRING, patterns[0], if |patterns| == 1 then rest else Kw(COMMA, PatternsThen(patterns[1..], rest)))
  }

  function DelimiterThen(delimiter: Option<string>, rest: Input): Input {
    if delimiter.None? then rest else Kw(WITH, One(STRING, delimiter.value, rest))
  }

  function StmtThen(s: Stmt, rest: Input): Input {
    match s
    case Blank => rest
    case Source(id, q, c, args) => Kw(SOURCE, Kw(AS, Ident(id, ClassThen(q, c, ArgsThen(args, false, rest)))))
    case Sink(src, q, c, args) => Kw(SINK, Ident(src, Kw(TO, ClassThen(q, c, ArgsThen(args, false, rest)))))
    case AsyncSink(src, id, q, c, args) =>
      Kw(SINK, Ident(src, Kw(ASYNC, Kw(AS, Ident(id, Kw(TO, ClassThen(q, c, ArgsThen(args, false, rest))))))))
    case Merge(a, b, id) => Kw(MERGE, Ident(a, Kw(AND, Ident(b, Kw(AS, Ident(id, rest))))))
    case Dupe(src, a, b) => Kw(DUPE, Ident(src, Kw(AS, Ident(a, Kw(AND, Ident(b, rest))))))
    case Append(src, target) => Kw(APPEND, Ident(src, Kw(TO, Ident(target, rest))))
    case Cut(delimiter, src, fields) =>
      Kw(CUT, DelimiterThen(delimiter, Ident(src, Kw(SET, Kw(LPAR, FieldsThen(fields, Kw(RPAR, rest)))))))
    case Fanout(src, a, b) => Kw(FANOUT, Ident(src, Kw(AS, Ident(a, Kw(AND, Ident(b, rest))))))
    case Tag(src, tag) => Kw(TAG, Ident(src, Kw(WITH, One(STRING, tag, rest))))
    case Join(src, patterns) => Kw(JOIN, Ident(src, Kw(WITH, PatternsThen(patterns, rest))))
  }

  /** A statement with its line: trailing says that a comma stands behind its last argument, last
      that the end of the text ends the line. */
  datatype Line = Line(stmt: Stmt, trailing: bool, last: bool)

  function CommaThen(trailing: bool, rest: Input): Input { if trailing then Kw(COMMA, rest) else rest }

  function LineThen(l: Line, rest: Input): Input {
    StmtThen(l.stmt, CommaThen(l.trailing, Kw(if l.last then EOF else EOL, rest)))
  }

  function ScriptShapes(lines: seq<Line>): Input {
    if lines == [] then [Fixed(EOF)]
    else LineThen(lines[0], if lines[0].last then [] else ScriptShapes(lines[1..]))
  }

  function Args(s: Stmt): seq<Shape> {
    if s.Source? || s.Sink? || s.AsyncSink? then s.args else []
  }

  predicate LineOk(l: Line) {
    && (l.trailing ==> Args(l.stmt) != [])
    && (l.last ==> !l.stmt.Blank?)
  }

  predicate LinesOk(lines: seq<Line>) {
    lines != [] ==> LineOk(lines[0]) && (lines[0].last ==> |lines| == 1) && LinesOk(lines[1..])
  }

  /** Every statement meets the rules of scope, in the scope that the ones before it leave. */
  predicate ScriptInScope(stmts: seq<Stmt>, sc: Scope, eng: Engine) {
    stmts != [] ==>
      && InScope(stmts[0], sc) && LiteralsOk(stmts[0], eng)
      && ScriptInScope(stmts[1..], After(stmts[0], sc), eng)
  }

  function AfterAll(stmts: seq<Stmt>, sc: Scope): Scope {
    if stmts == [] then sc else AfterAll(stmts[1..], After(stmts[0], sc))
  }

  function Stmts(lines: seq<Line>): (r: seq<Stmt>)
    ensures |r| == |lines|
  {
    if lines == [] then [] else [lines[0].stmt] + Stmts(lines[1..])
  }

  /** What a lexer posts: fixed tokens are spelled as they must be, and exactly the last token is
      EOF or an error. */
  predicate Ready(xs: Input)
    ensures Ready(xs) ==> xs != []
  {
    && xs != []
    && forall k :: 0 <= k < |xs| ==>
         Spelled(xs[k]) && ((xs[k].typ.EOF? || xs[k].typ.ERR?) <==> k == |xs| - 1)
  }

  // ----- What the parser reads, the grammar derives --------------------------------------------

  lemma {:induction false} TailReady(xs: Input)
    requires Ready(xs) && !Head(xs).typ.EOF? && !Head(xs).typ.ERR?
    ensures Ready(Tail(xs)) && xs == [Head(xs)] + Tail(xs)
    ensures !IsLiteral(Head(xs).typ) ==> Head(xs) == Fixed(Head(xs).typ)
  {
  }

  lemma {:induction false} WantTakes(xs: Input, sc: Scope, typ: TokenType)
    requires Ready(xs) && Want(xs, sc, typ).Ok? && !typ.EOF? && !typ.ERR?
    ensures
      var r := Want(xs, sc, typ);
      && Ready(r.rest) && r.scope == sc && xs == One(typ, r.value, r.rest)
      && (!IsLiteral(typ) ==> xs == Kw(typ, r.rest))
  {
  }

  lemma {:induction false} EolTakes(xs: Input, sc: Scope) returns (last: bool)
    requires Ready(xs) && ReadEol(xs, sc).Ok?
    ensures
      var r := ReadEol(xs, sc);
      && xs == Kw(if last then EOF else EOL, r.rest) && r.scope == sc
      && (if last then r.rest == [] else Ready(r.rest))
  {
    last := Head(xs).typ.EOF?;
    assert xs == [xs[0]] + xs[1..];
    if !last {
      TailReady(xs);
    }
  }

  lemma {:induction false} SourceTakes(xs: Input, sc: Scope)
    requires Ready(xs)
    ensures
      var r := ReadSource(xs, sc);
      r.Ok? ==> Ready(r.rest) && xs == Ident(r.value, r.rest) && r.scope == sc && Live(r.value, sc)
    ensures
      var r := ConsumeSource(xs, sc);
      r.Ok? ==> Ready(r.rest) && xs == Ident(r.value, r.rest) && Live(r.value, sc)
                && r.scope == sc.(consumed := sc.consumed + {r.value})
    ensures
      var r := DefineSource(xs, sc);
      r.Ok? ==> Ready(r.rest) && xs == Ident(r.value, r.rest) && r.value !in sc.sources
                && r.scope == sc.(sources := sc.sources + {r.value})
    ensures
      var r := DefineSink(xs, sc);
      r.Ok? ==> Ready(r.rest) && xs == Ident(r.value, r.rest) && r.value !in sc.sources && r.value !in sc.sinks
                && r.scope == sc.(sinks := sc.sinks + {r.value})
  {
  }

  lemma {:induction false} ClassTakes(xs: Input, sc: Scope)
    requires Ready(xs) && ReadClass(xs, sc).Ok?
    ensures
      var r := ReadClass(xs, sc);
      xs == ClassThen(r.value.0, r.value.1, r.rest) && Ready(r.rest) && r.scope == sc
  {
  }

  lemma {:induction false} ArgsUnfold(xs: Input, sc: Scope, eng: Engine, more: bool)
    requires ReadArgs(xs, sc, eng, more).Ok?
    ensures
      var r := ReadArgs(xs, sc, eng, more);
      var ys := if more then Tail(xs) else xs;
      if more && Head(xs).typ != COMMA then r == Ok([], xs, sc)
      else if !IsArg(Head(ys).typ) then r == Ok([], ys, sc)
      else
        var r' := ReadArgs(Tail(ys), sc, eng, true);
        && ArgFault(Head(ys), sc, eng).None? && r'.Ok? && |Tail(ys)| < |xs|
        && r == Ok([Head(ys)] + r'.value, r'.rest, sc) && r.value[1..] == r'.value
  {
  }

  lemma {:induction false} ArgsTake(xs: Input, sc: Scope, eng: Engine, more: bool) returns (trailing: bool)
    requires Ready(xs) && ReadArgs(xs, sc, eng, more).Ok?
    ensures
      var r := ReadArgs(xs, sc, eng, more);
      && xs == ArgsThen(r.value, more, CommaThen(trailing, r.rest)) && Ready(r.rest)
      && (trailing ==> more || r.value != [])
    decreases |xs|
  {
    hide ArgFault, Ready, ReadArgs, IsArg, Fixed;
    ArgsUnfold(xs, sc, eng, more);
    if more && Head(xs).typ != COMMA {
      return false;
    }
    if more {
      assert Want(xs, sc, COMMA).Ok?;
      WantTakes(xs, sc, COMMA);
    }
    var ys := if more then Tail(xs) else xs;
    if !IsArg(Head(ys).typ) {
      return more;
    }
    ArgTakes(ys, sc);
    trailing := ArgsTake(Tail(ys), sc, eng, true);
  }

  lemma {:induction false} ArgTakes(xs: Input, sc: Scope)
    requires Ready(xs) && IsArg(Head(xs).typ)
    ensures xs == [Head(xs)] + Tail(xs) && Ready(Tail(xs))
  {
  }

  lemma {:induction false} ArgsChecked(xs: Input, sc: Scope, eng: Engine, more: bool)
    requires ReadArgs(xs, sc, eng, more).Ok?
    ensures
      var args := ReadArgs(xs, sc, eng, more).value;
      ArgsOk(args, eng) && ArgsDefined(args, sc.sources + sc.sinks)
    decreases |xs|
  {
    hide IntOk, ReadArgs;
    ArgsUnfold(xs, sc, eng, more);
    if !(more && Head(xs).typ != COMMA) {
      var ys := if more then Tail(xs) else xs;
      if IsArg(Head(ys).typ) {
        ArgsChecked(Tail(ys), sc, eng, true);
      }
    }
  }

  lemma {:induction false} CallTakes(xs: Input, sc: Scope, eng: Engine) returns (trailing: bool, last: bool)
    requires Ready(xs) && ReadCall(xs, sc, eng).Ok?
    ensures
      var r := ReadCall(xs, sc, eng);
      var (q, c, args) := r.value;
      && xs == ClassThen(q, c, ArgsThen(args, false, CommaThen(trailing, Kw(if last then EOF else EOL, r.rest))))
      && r.scope == sc && (if last then r.rest == [] else Ready(r.rest))
      && (trailing ==> args != [])
      && ArgsOk(args, eng) && ArgsDefined(args, sc.sources + sc.sinks)
  {
    hide Ready, ReadClass, ReadArgs, ReadEol, ClassThen, ArgsThen, ArgsOk, ArgsDefined;
    ClassTakes(xs, sc);
    var xs1 := ReadClass(xs, sc).rest;
    trailing := ArgsTake(xs1, sc, eng, false);
    ArgsChecked(xs1, sc, eng, false);
    last := EolTakes(ReadArgs(xs1, sc, eng, false).rest, sc);
  }

  lemma {:induction false} FieldTakes(xs: Input, sc: Scope)
    requires Ready(xs) && ReadField(xs, sc).Ok?
    ensures
      var r := ReadField(xs, sc);
      && xs == Ident(r.value.0, Kw(EQ, One(INT, r.value.1, r.rest))) && Ready(r.rest)
      && IntOk(r.value.1)
  {
    hide Ready, IntOk, Fixed;
    WantTakes(xs, sc, IDENTIFIER);
    var xs1 := Want(xs, sc, IDENTIFIER).rest;
    WantTakes(xs1, sc, EQ);
    WantTakes(Want(xs1, sc, EQ).rest, sc, INT);
  }

  lemma {:induction false} FieldsTake(xs: Input, sc: Scope)
    requires Ready(xs) && ReadFields(xs, sc).Ok?
    ensures
      var r := ReadFields(xs, sc);
      && xs == FieldsThen(r.value, Kw(RPAR, r.rest)) && Ready(r.rest)
      && r.value != [] && FieldsOk(r.value)
    decreases |xs|
  {
    hide Ready, IntOk, Fixed, ReadField;
    FieldTakes(xs, sc);
    var xs1 := ReadField(xs, sc).rest;
    if Head(xs1).typ == RPAR {
      assert Want(xs1, sc, RPAR).Ok?;
      WantTakes(xs1, sc, RPAR);
    } else {
      WantTakes(xs1, sc, COMMA);
      FieldsTake(Tail(xs1), sc);
      var fields := ReadFields(Tail(xs1), sc).value;
      assert ReadFields(xs, sc).value[1..] == fields;
    }
  }

  lemma {:induction false} PatternsTake(xs: Input, sc: Scope, eng: Engine)
    requires Ready(xs) && ReadPatterns(xs, sc, eng).Ok?
    ensures
      var r := ReadPatterns(xs, sc, eng);
      && xs == PatternsThen(r.value, r.rest) && Ready(r.rest)
      && r.value != [] && PatternsOk(r.value, eng)
    decreases |xs|
  {
    hide Ready, Escape, Fixed;
    WantTakes(xs, sc, STRING);
    var xs1 := Want(xs, sc, STRING).rest;
    if Head(xs1).typ == COMMA {
      assert Want(xs1, sc, COMMA).Ok?;
      WantTakes(xs1, sc, COMMA);
      PatternsTake(Tail(xs1), sc, eng);
      var patterns := ReadPatterns(Tail(xs1), sc, eng).value;
      assert ReadPatterns(xs, sc, eng).value[1..] == patterns;
    }
  }

  /** A statement that was read is a line of the grammar, keeps the rules of scope and leaves the
      scope that they give. */
  ghost predicate Took(l: Line, xs: Input, sc: Scope, eng: Engine, r: Parse<Stmt>) {
    && r.Ok? && l.stmt == r.value && LineOk(l)
    && xs == LineThen(l, r.rest)
    && InScope(l.stmt, sc) && LiteralsOk(l.stmt, eng) && r.scope == After(l.stmt, sc)
    && (if l.last then r.rest == [] else Ready(r.rest))
  }

  lemma {:induction false} SourceStmtTakes(xs: Input, sc: Scope, eng: Engine) returns (l: Line)
    requires Ready(xs) && ReadSourceStmt(xs, sc, eng).Ok?
    ensures Took(l, xs, sc, eng, ReadSourceStmt(xs, sc, eng))
  {
    hide Ready, Want, DefineSource, ReadCall, ClassThen, ArgsThen, ArgsOk, ArgsDefined;
    WantTakes(xs, sc, SOURCE);
    var xs1 := Want(xs, sc, SOURCE).rest;
    WantTakes(xs1, sc, AS);
    var xs2 := Want(xs1, sc, AS).rest;
    SourceTakes(xs2, sc);
    var r := DefineSource(xs2, sc);
    var trailing, last := CallTakes(r.rest, r.scope, eng);
    l := Line(ReadSourceStmt(xs, sc, eng).value, trailing, last);
  }

  lemma {:induction false} SinkStmtTakes(xs: Input, sc: Scope, eng: Engine) returns (l: Line)
    requires Ready(xs) && ReadSinkStmt(xs, sc, eng).Ok?
    ensures Took(l, xs, sc, eng, ReadSinkStmt(xs, sc, eng))
  {
    hide Ready, Want, ConsumeSource, ReadMode, ReadCall, ClassThen, ArgsThen, ArgsOk, ArgsDefined;
    WantTakes(xs, sc, SINK);
    var xs1 := Want(xs, sc, SINK).rest;
    SourceTakes(xs1, sc);
    var r := ConsumeSource(xs1, sc);
    ModeTakes(r.rest, r.scope);
    var m := ReadMode(r.rest, r.scope);
    var trailing, last := CallTakes(m.rest, m.scope, eng);
    l := Line(ReadSinkStmt(xs, sc, eng).value, trailing, last);
    SameKnown(m.scope, r.scope, m.value);
  }

  lemma {:induction false} WantIs(xs: Input, sc: Scope, typ: TokenType)
    ensures Want(xs, sc, typ) ==
      if Head(xs).typ == typ then Ok(Head(xs).text, Tail(xs), sc) else No(Unexpected)
  {
  }

  lemma {:induction false} AsyncTakes(xs: Input, sc: Scope)
    requires Ready(xs) && ReadAsync(xs, sc).Ok?
    ensures
      var r := ReadAsync(xs, sc);
      && xs == Kw(AS, Ident(r.value, Kw(TO, r.rest))) && Ready(r.rest)
      && r.value !in sc.sources && r.value !in sc.sinks && r.scope == sc.(sinks := sc.sinks + {r.value})
  {
    hide Ready, Want, DefineSink, Word;
    WantTakes(xs, sc, AS);
    var xs1 := Want(xs, sc, AS).rest;
    SourceTakes(xs1, sc);
    var r := DefineSink(xs1, sc);
    WantTakes(r.rest, r.scope, TO);
  }

  lemma {:induction false} ModeTakes(xs: Input, sc: Scope)
    requires Ready(xs) && ReadMode(xs, sc).Ok?
    ensures
      var r := ReadMode(xs, sc);
      && Ready(r.rest)
      && if r.value.None? then xs == Kw(TO, r.rest) && r.scope == sc
         else
           var id := r.value.value;
           && xs == Kw(ASYNC, Kw(AS, Ident(id, Kw(TO, r.rest))))
           && id !in sc.sources && id !in sc.sinks && r.scope == sc.(sinks := sc.sinks + {id})
  {
    hide Ready, Want, ReadAsync, Word;
    if Head(xs).typ == ASYNC {
      WantIs(xs, sc, ASYNC);
      WantTakes(xs, sc, ASYNC);
      AsyncTakes(Tail(xs), sc);
    } else {
      WantTakes(xs, sc, TO);
    }
  }

  lemma {:induction false} SameKnown(after: Scope, sc: Scope, mode: Option<string>)
    requires after == if mode.None? then sc else sc.(sinks := sc.sinks + {mode.value})
    ensures after.sources + after.sinks
         == sc.sources + sc.sinks + if mode.None? then {} else {mode.value}
  {
  }

  lemma {:induction false} PairTakes(xs: Input, sc: Scope)
    requires Ready(xs) && ConsumePair(xs, sc).Ok?
    ensures
      var r := ConsumePair(xs, sc);
      var (a, b) := r.value;
      && xs == Ident(a, Kw(AND, Ident(b, r.rest))) && Ready(r.rest)
      && Live(a, sc) && Live(b, sc) && a != b && r.scope == sc.(consumed := sc.consumed + {a, b})
  {
    hide Ready, Want, ConsumeSource;
    SourceTakes(xs, sc);
    var a := ConsumeSource(xs, sc);
    WantTakes(a.rest, a.scope, AND);
    var xs1 := Want(a.rest, a.scope, AND).rest;
    SourceTakes(xs1, a.scope);
    var b := ConsumeSource(xs1, a.scope);
    assert sc.consumed + {a.value} + {b.value} == sc.consumed + {a.value, b.value};
  }

  lemma {:induction false} UnionTakes(xs: Input, sc: Scope) returns (last: bool)
    requires Ready(xs) && ReadUnion(xs, sc).Ok?
    ensures
      var r := ReadUnion(xs, sc);
      var (a, b, id) := r.value;
      && xs == Ident(a, Kw(AND, Ident(b, Kw(AS, Ident(id, Kw(if last then EOF else EOL, r.rest))))))
      && Live(a, sc) && Live(b, sc) && a != b && id !in sc.sources
      && r.scope == sc.(consumed := sc.consumed + {a, b}, sources := sc.sources + {id})
      && (if last then r.rest == [] else Ready(r.rest))
  {
    hide Ready, Want, ConsumePair, DefineSource, ReadEol;
    PairTakes(xs, sc);
    var srcs := ConsumePair(xs, sc);
    WantTakes(srcs.rest, srcs.scope, AS);
    var xs1 := Want(srcs.rest, srcs.scope, AS).rest;
    SourceTakes(xs1, srcs.scope);
    var id := DefineSource(xs1, srcs.scope);
    last := EolTakes(id.rest, id.scope);
  }

  lemma {:induction false} MergeStmtTakes(xs: Input, sc: Scope, eng: Engine) returns (l: Line)
    requires Ready(xs) && ReadMergeStmt(xs, sc).Ok?
    ensures Took(l, xs, sc, eng, ReadMergeStmt(xs, sc))
  {
    hide Ready, Want, ReadUnion;
    WantTakes(xs, sc, MERGE);
    var last := UnionTakes(Want(xs, sc, MERGE).rest, sc);
    l := Line(ReadMergeStmt(xs, sc).value, false, last);
  }

  lemma {:induction false} SplitTakes(xs: Input, sc: Scope) returns (last: bool)
    requires Ready(xs) && ReadSplit(xs, sc).Ok?
    ensures
      var r := ReadSplit(xs, sc);
      var (src, a, b) := r.value;
      && xs == Ident(src, Kw(AS, Ident(a, Kw(AND, Ident(b, Kw(if last then EOF else EOL, r.rest))))))
      && Live(src, sc) && a !in sc.sources && b !in sc.sources && a != b
      && r.scope == sc.(consumed := sc.consumed + {src}, sources := sc.sources + {a, b})
      && (if last then r.rest == [] else Ready(r.rest))
  {
    hide Ready, Want, ConsumeSource, DefineSource, ReadEol;
    SourceTakes(xs, sc);
    var src := ConsumeSource(xs, sc);
    WantTakes(src.rest, src.scope, AS);
    var xs1 := Want(src.rest, src.scope, AS).rest;
    SourceTakes(xs1, src.scope);
    var a := DefineSource(xs1, src.scope);
    WantTakes(a.rest, a.scope, AND);
    var xs2 := Want(a.rest, a.scope, AND).rest;
    SourceTakes(xs2, a.scope);
    var b := DefineSource(xs2, a.scope);
    last := EolTakes(b.rest, b.scope);
    assert sc.sources + {a.value} + {b.value} == sc.sources + {a.value, b.value};
  }

  lemma {:induction false} TargetTakes(xs: Input, sc: Scope)
    requires Ready(xs) && ReadTarget(xs, sc).Ok?
    ensures
      var r := ReadTarget(xs, sc);
      xs == Kw(TO, Ident(r.value, r.rest)) && Ready(r.rest) && r.value in sc.sources && r.scope == sc
  {
  }

  lemma {:induction false} AppendStmtTakes(xs: Input, sc: Scope, eng: Engine) returns (l: Line)
    requires Ready(xs) && ReadAppendStmt(xs, sc).Ok?
    ensures Took(l, xs, sc, eng, ReadAppendStmt(xs, sc))
  {
    hide Ready, Want, ConsumeSource, ReadTarget, ReadEol;
    WantTakes(xs, sc, APPEND);
    var xs1 := Want(xs, sc, APPEND).rest;
    SourceTakes(xs1, sc);
    var src := ConsumeSource(xs1, sc);
    TargetTakes(src.rest, src.scope);
    var last := EolTakes(ReadTarget(src.rest, src.scope).rest, src.scope);
    l := Line(ReadAppendStmt(xs, sc).value, false, last);
  }

  lemma {:induction false} DelimiterTakes(xs: Input, sc: Scope)
    requires Ready(xs) && ReadDelimiter(xs, sc).Ok?
    ensures
      var r := ReadDelimiter(xs, sc);
      xs == DelimiterThen(r.value, r.rest) && Ready(r.rest) && r.scope == sc
  {
  }

  lemma {:induction false} FieldSetTakes(xs: Input, sc: Scope) returns (last: bool)
    requires Ready(xs) && ReadFieldSet(xs, sc).Ok?
    ensures
      var r := ReadFieldSet(xs, sc);
      && xs == Kw(SET, Kw(LPAR, FieldsThen(r.value, Kw(RPAR, Kw(if last then EOF else EOL, r.rest)))))
      && r.scope == sc && (if last then r.rest == [] else Ready(r.rest))
      && r.value != [] && FieldsOk(r.value)
  {
    hide Ready, Want, ReadFields, FieldsThen, ReadEol, IntOk;
    WantTakes(xs, sc, SET);
    var xs1 := Want(xs, sc, SET).rest;
    WantTakes(xs1, sc, LPAR);
    var xs2 := Want(xs1, sc, LPAR).rest;
    FieldsTake(xs2, sc);
    last := EolTakes(ReadFields(xs2, sc).rest, sc);
  }

  lemma {:induction false} CutHeadTakes(xs: Input, sc: Scope)
    requires Ready(xs) && ReadCutHead(xs, sc).Ok?
    ensures
      var r := ReadCutHead(xs, sc);
      && xs == DelimiterThen(r.value.0, Ident(r.value.1, r.rest)) && Ready(r.rest)
      && r.value.1 !in sc.consumed && r.scope == sc
  {
    hide Ready, Want, ReadDelimiter;
    DelimiterTakes(xs, sc);
    WantTakes(ReadDelimiter(xs, sc).rest, sc, IDENTIFIER);
  }

  lemma {:induction false} CutStmtTakes(xs: Input, sc: Scope, eng: Engine) returns (l: Line)
    requires Ready(xs) && ReadCutStmt(xs, sc).Ok?
    ensures Took(l, xs, sc, eng, ReadCutStmt(xs, sc))
  {
    hide Ready, Want, ReadCutHead, DelimiterThen, ReadFieldSet, FieldsThen, IntOk;
    WantTakes(xs, sc, CUT);
    var xs1 := Want(xs, sc, CUT).rest;
    CutHeadTakes(xs1, sc);
    var last := FieldSetTakes(ReadCutHead(xs1, sc).rest, sc);
    l := Line(ReadCutStmt(xs, sc).value, false, last);
  }

  lemma {:induction false} SubjectTakes(xs: Input, sc: Scope)
    requires Ready(xs) && ReadSubject(xs, sc).Ok?
    ensures
      var r := ReadSubject(xs, sc);
      xs == Ident(r.value, Kw(WITH, r.rest)) && Ready(r.rest) && Live(r.value, sc) && r.scope == sc
  {
  }

  lemma {:induction false} TagStmtTakes(xs: Input, sc: Scope, eng: Engine) returns (l: Line)
    requires Ready(xs) && ReadTagStmt(xs, sc).Ok?
    ensures Took(l, xs, sc, eng, ReadTagStmt(xs, sc))
  {
    hide Ready, Want, ReadSubject, ReadEol;
    WantTakes(xs, sc, TAG);
    var xs1 := Want(xs, sc, TAG).rest;
    SubjectTakes(xs1, sc);
    var xs2 := ReadSubject(xs1, sc).rest;
    WantTakes(xs2, sc, STRING);
    var last := EolTakes(Want(xs2, sc, STRING).rest, sc);
    l := Line(ReadTagStmt(xs, sc).value, false, last);
  }

  lemma {:induction false} JoinStmtTakes(xs: Input, sc: Scope, eng: Engine) returns (l: Line)
    requires Ready(xs) && ReadJoinStmt(xs, sc, eng).Ok?
    ensures Took(l, xs, sc, eng, ReadJoinStmt(xs, sc, eng))
  {
    hide Ready, Want, ReadSubject, ReadPatterns, PatternsThen, ReadEol, Escape;
    WantTakes(xs, sc, JOIN);
    var xs1 := Want(xs, sc, JOIN).rest;
    SubjectTakes(xs1, sc);
    var xs2 := ReadSubject(xs1, sc).rest;
    PatternsTake(xs2, sc, eng);
    var last := EolTakes(ReadPatterns(xs2, sc, eng).rest, sc);
    l := Line(ReadJoinStmt(xs, sc, eng).value, false, last);
  }

  lemma {:induction false} StmtTakes(xs: Input, sc: Scope, eng: Engine) returns (l: Line)
    requires Ready(xs) && ReadStmt(xs, sc, eng).Ok?
    ensures Took(l, xs, sc, eng, ReadStmt(xs, sc, eng))
  {
    hide Ready, Took, ReadSourceStmt, ReadSinkStmt, ReadMergeStmt, ReadDupeStmt, ReadAppendStmt,
      ReadCutStmt, ReadFanoutStmt, ReadTagStmt, ReadJoinStmt;
    match Head(xs).typ
    case EOL => l := BlankTakes(xs, sc, eng);
    case SOURCE => l := SourceStmtTakes(xs, sc, eng);
    case SINK => l := SinkStmtTakes(xs, sc, eng);
    case MERGE => l := MergeStmtTakes(xs, sc, eng);
    case DUPE => l := DupeStmtTakes(xs, sc, eng);
    case APPEND => l := AppendStmtTakes(xs, sc, eng);
    case CUT => l := CutStmtTakes(xs, sc, eng);
    case FANOUT => l := FanoutStmtTakes(xs, sc, eng);
    case TAG => l := TagStmtTakes(xs, sc, eng);
    case JOIN => l := JoinStmtTakes(xs, sc, eng);
  }

  lemma {:induction false} BlankTakes(xs: Input, sc: Scope, eng: Engine) returns (l: Line)
    requires Ready(xs) && Head(xs).typ == EOL
    ensures Took(l, xs, sc, eng, ReadStmt(xs, sc, eng))
  {
    hide Ready;
    assert Want(xs, sc, EOL).Ok?;
    WantTakes(xs, sc, EOL);
    l := Line(Blank, false, false);
  }

  lemma {:induction false} DupeStmtTakes(xs: Input, sc: Scope, eng: Engine) returns (l: Line)
    requires Ready(xs) && ReadDupeStmt(xs, sc).Ok?
    ensures Took(l, xs, sc, eng, ReadDupeStmt(xs, sc))
  {
    hide Ready, Want, ReadSplit;
    WantTakes(xs, sc, DUPE);
    var last := SplitTakes(Want(xs, sc, DUPE).rest, sc);
    l := Line(ReadDupeStmt(xs, sc).value, false, last);
  }

  lemma {:induction false} FanoutStmtTakes(xs: Input, sc: Scope, eng: Engine) returns (l: Line)
    requires Ready(xs) && ReadFanoutStmt(xs, sc).Ok?
    ensures Took(l, xs, sc, eng, ReadFanoutStmt(xs, sc))
  {
    hide Ready, Want, ReadSplit;
    WantTakes(xs, sc, FANOUT);
    var last := SplitTakes(Want(xs, sc, FANOUT).rest, sc);
    l := Line(ReadFanoutStmt(xs, sc).value, false, last);
  }

  // ----- What the grammar derives, the parser reads --------------------------------------------

  lemma {:induction false} WantReads(typ: TokenType, text: string, rest: Input, sc: Scope)
    requires !typ.ERR?
    ensures Want(One(typ, text, rest), sc, typ) == Ok(text, rest, sc)
    ensures Head(One(typ, text, rest)) == Shape(typ, text) && Tail(One(typ, text, rest)) == rest
  {
  }

  lemma {:induction false} KwReads(typ: TokenType, rest: Input, sc: Scope)
    requires !typ.ERR?
    ensures Want(Kw(typ, rest), sc, typ) == Ok(Word(typ), rest, sc)
    ensures Head(Kw(typ, rest)) == Fixed(typ) && Tail(Kw(typ, rest)) == rest
  {
  }

  lemma {:induction false} EolReads(last: bool, rest: Input, sc: Scope)
    ensures ReadEol(Kw(if last then EOF else EOL, rest), sc)
         == Ok(Word(if last then EOF else EOL), rest, sc)
  {
  }

  lemma {:induction false} SourceReads(id: string, rest: Input, sc: Scope)
    ensures Live(id, sc) ==>
      && ReadSource(Ident(id, rest), sc) == Ok(id, rest, sc)
      && ConsumeSource(Ident(id, rest), sc) == Ok(id, rest, sc.(consumed := sc.consumed + {id}))
    ensures id !in sc.sources ==>
      DefineSource(Ident(id, rest), sc) == Ok(id, rest, sc.(sources := sc.sources + {id}))
    ensures id !in sc.sources && id !in sc.sinks ==>
      DefineSink(Ident(id, rest), sc) == Ok(id, rest, sc.(sinks := sc.sinks + {id}))
  {
  }

  lemma {:induction false} ArgReads(x: Shape, more: bool, behind: Input, sc: Scope, eng: Engine)
    requires ArgOk(x, eng) && (x.typ == IDENTIFIER ==> x.text in sc.sources + sc.sinks)
    ensures
      var r := ReadArgs(behind, sc, eng, true);
      var xs := [x] + behind;
      r.Ok? ==> ReadArgs(if more then Kw(COMMA, xs) else xs, sc, eng, more) == Ok([x] + r.value, r.rest, sc)
  {
    hide IntOk, Word;
    WantReads(x.typ, x.text, behind, sc);
    KwReads(COMMA, [x] + behind, sc);
  }

  lemma {:induction false} NoArgReads(more: bool, trailing: bool, rest: Input, sc: Scope, eng: Engine)
    requires trailing ==> more
    requires Head(rest).typ.EOF? || Head(rest).typ.EOL?
    ensures ReadArgs(CommaThen(trailing, rest), sc, eng, more) == Ok([], rest, sc)
  {
  }

  lemma {:induction false} ArgsRead(args: seq<Shape>, more: bool, trailing: bool, rest: Input, sc: Scope, eng: Engine)
    requires ArgsOk(args, eng) && ArgsDefined(args, sc.sources + sc.sinks)
    requires trailing ==> more || args != []
    requires Head(rest).typ.EOF? || Head(rest).typ.EOL?
    ensures ReadArgs(ArgsThen(args, more, CommaThen(trailing, rest)), sc, eng, more) == Ok(args, rest, sc)
  {
    hide ReadArgs, ArgOk, Word, CommaThen;
    if args == [] {
      NoArgReads(more, trailing, rest, sc, eng);
    } else {
      assert ArgsOk(args[1..], eng) && ArgsDefined(args[1..], sc.sources + sc.sinks);
      ArgsRead(args[1..], true, trailing, rest, sc, eng);
      ArgReads(args[0], more, ArgsThen(args[1..], true, CommaThen(trailing, rest)), sc, eng);
      assert args == [args[0]] + args[1..];
    }
  }

  lemma {:induction false} CallReads(q: string, c: string, args: seq<Shape>, trailing: bool, last: bool, rest: Input,
                  sc: Scope, eng: Engine)
    requires ArgsOk(args, eng) && ArgsDefined(args, sc.sources + sc.sinks) && (trailing ==> args != [])
    ensures
      ReadCall(ClassThen(q, c, ArgsThen(args, false, CommaThen(trailing, Kw(if last then EOF else EOL, rest)))),
               sc, eng)
      == Ok((q, c, args), rest, sc)
  {
    hide Word, ArgsThen, CommaThen, ReadArgs, ReadEol, ArgsOk, ArgsDefined, Want;
    var eol := Kw(if last then EOF else EOL, rest);
    var list := ArgsThen(args, false, CommaThen(trailing, eol));
    WantReads(IDENTIFIER, q, Kw(DOT, Ident(c, list)), sc);
    KwReads(DOT, Ident(c, list), sc);
    WantReads(IDENTIFIER, c, list, sc);
    KwReads(if last then EOF else EOL, rest, sc);
    ArgsRead(args, false, trailing, eol, sc, eng);
    EolReads(last, rest, sc);
  }

  lemma {:induction false} FieldReads(id: string, num: string, rest: Input, sc: Scope)
    requires IntOk(num)
    ensures ReadField(Ident(id, Kw(EQ, One(INT, num, rest))), sc) == Ok((id, num), rest, sc)
  {
    hide IntOk, Word, Want;
    WantReads(IDENTIFIER, id, Kw(EQ, One(INT, num, rest)), sc);
    KwReads(EQ, One(INT, num, rest), sc);
    WantReads(INT, num, rest, sc);
  }

  lemma {:induction false} FieldsRead(fields: seq<(string, string)>, rest: Input, sc: Scope)
    requires fields != [] && FieldsOk(fields)
    ensures ReadFields(FieldsThen(fields, Kw(RPAR, rest)), sc) == Ok(fields, rest, sc)
  {
    hide IntOk, Word, Want, ReadField, ReadFields;
    var (id, num) := fields[0];
    if |fields| == 1 {
      LastFieldReads(id, num, rest, sc);
      assert fields == [(id, num)];
    } else {
      var behind := FieldsThen(fields[1..], Kw(RPAR, rest));
      FieldsRead(fields[1..], rest, sc);
      NextFieldReads(id, num, behind, sc);
      assert fields == [(id, num)] + fields[1..];
    }
  }

  lemma {:induction false} LastFieldReads(id: string, num: string, rest: Input, sc: Scope)
    requires IntOk(num)
    ensures ReadFields(Ident(id, Kw(EQ, One(INT, num, Kw(RPAR, rest)))), sc) == Ok([(id, num)], rest, sc)
  {
    hide IntOk, Word, Want, ReadField;
    FieldReads(id, num, Kw(RPAR, rest), sc);
    KwReads(RPAR, rest, sc);
  }

  lemma {:induction false} NextFieldReads(id: string, num: string, behind: Input, sc: Scope)
    requires IntOk(num)
    ensures
      var r := ReadFields(behind, sc);
      var xs := Ident(id, Kw(EQ, One(INT, num, Kw(COMMA, behind))));
      r.Ok? ==> ReadFields(xs, sc) == Ok([(id, num)] + r.value, r.rest, sc)
  {
    hide IntOk, Word, Want, ReadField;
    FieldReads(id, num, Kw(COMMA, behind), sc);
    KwReads(COMMA, behind, sc);
  }

  lemma {:induction false} PatternsRead(patterns: seq<string>, rest: Input, sc: Scope, eng: Engine)
    requires patterns != [] && PatternsOk(patterns, eng)
    requires !Head(rest).typ.COMMA?
    ensures ReadPatterns(PatternsThen(patterns, rest), sc, eng) == Ok(patterns, rest, sc)
  {
    hide Escape, Word, Fixed, PatternsOk, ReadPatterns;
    PatternsOkParts(patterns, eng);
    if |patterns| == 1 {
      PatternReads(patterns[0], rest, sc, eng);
      assert patterns == [patterns[0]];
    } else {
      var behind := PatternsThen(patterns[1..], rest);
      CommaReads(behind);
      PatternReads(patterns[0], Kw(COMMA, behind), sc, eng);
      PatternsRead(patterns[1..], rest, sc, eng);
      assert patterns == [patterns[0]] + patterns[1..];
    }
  }

  lemma {:induction false} PatternReads(pattern: string, behind: Input, sc: Scope, eng: Engine)
    requires eng.patternOk(Escape(pattern))
    ensures
      var r := ReadPatterns(Tail(behind), sc, eng);
      var xs := One(STRING, pattern, behind);
      if Head(behind).typ != COMMA then ReadPatterns(xs, sc, eng) == Ok([pattern], behind, sc)
      else r.Ok? ==> ReadPatterns(xs, sc, eng) == Ok([pattern] + r.value, r.rest, sc)
  {
  }

  lemma {:induction false} PatternsOkParts(patterns: seq<string>, eng: Engine)
    requires patterns != []
    ensures PatternsOk(patterns, eng) <==> eng.patternOk(Escape(patterns[0])) && PatternsOk(patterns[1..], eng)
  {
  }

  lemma {:induction false} CommaReads(rest: Input)
    ensures Head(Kw(COMMA, rest)).typ == COMMA && Tail(Kw(COMMA, rest)) == rest
  {
  }

  /** A line of the grammar that keeps the rules of scope is read as what it is. */
  ghost predicate Reads(l: Line, rest: Input, sc: Scope, eng: Engine) {
    ReadStmt(LineThen(l, rest), sc, eng) == Ok(l.stmt, rest, After(l.stmt, sc))
  }

  lemma {:induction false} SourceStmtReads(l: Line, rest: Input, sc: Scope, eng: Engine)
    requires l.stmt.Source? && LineOk(l) && InScope(l.stmt, sc) && LiteralsOk(l.stmt, eng)
    ensures Reads(l, rest, sc, eng)
  {
    hide Word, Want, DefineSource, ReadCall, ClassThen, ArgsThen, ArgsOk, ArgsDefined;
    var Source(id, q, c, args) := l.stmt;
    var eol := Kw(if l.last then EOF else EOL, rest);
    var call := ClassThen(q, c, ArgsThen(args, false, CommaThen(l.trailing, eol)));
    var sc1 := sc.(sources := sc.sources + {id});
    KwReads(SOURCE, Kw(AS, Ident(id, call)), sc);
    KwReads(AS, Ident(id, call), sc);
    SourceReads(id, call, sc);
    CallReads(q, c, args, l.trailing, l.last, rest, sc1, eng);
  }

  lemma {:induction false} SinkStmtReads(l: Line, rest: Input, sc: Scope, eng: Engine)
    requires l.stmt.Sink? && LineOk(l) && InScope(l.stmt, sc) && LiteralsOk(l.stmt, eng)
    ensures Reads(l, rest, sc, eng)
  {
    hide Word, Want, ConsumeSource, ReadMode, ReadCall, ClassThen, ArgsThen, ArgsOk, ArgsDefined;
    var Sink(src, q, c, args) := l.stmt;
    var eol := Kw(if l.last then EOF else EOL, rest);
    var call := ClassThen(q, c, ArgsThen(args, false, CommaThen(l.trailing, eol)));
    var sc1 := sc.(consumed := sc.consumed + {src});
    KwReads(SINK, Ident(src, Kw(TO, call)), sc);
    SourceReads(src, Kw(TO, call), sc);
    NoModeReads(call, sc1);
    CallReads(q, c, args, l.trailing, l.last, rest, sc1, eng);
  }

  lemma {:induction false} NoModeReads(rest: Input, sc: Scope)
    ensures ReadMode(Kw(TO, rest), sc) == Ok(None, rest, sc)
  {
  }

  lemma {:induction false} AsyncReads(id: string, rest: Input, sc: Scope)
    requires id !in sc.sources && id !in sc.sinks
    ensures ReadAsync(Kw(AS, Ident(id, Kw(TO, rest))), sc) == Ok(id, rest, sc.(sinks := sc.sinks + {id}))
  {
    hide Word, Want, DefineSink;
    KwReads(AS, Ident(id, Kw(TO, rest)), sc);
    SourceReads(id, Kw(TO, rest), sc);
    KwReads(TO, rest, sc.(sinks := sc.sinks + {id}));
  }

  lemma {:induction false} ModeReads(id: string, rest: Input, sc: Scope)
    requires id !in sc.sources && id !in sc.sinks
    ensures ReadMode(Kw(ASYNC, Kw(AS, Ident(id, Kw(TO, rest)))), sc)
         == Ok(Some(id), rest, sc.(sinks := sc.sinks + {id}))
  {
    hide Word, Want, ReadAsync;
    KwReads(ASYNC, Kw(AS, Ident(id, Kw(TO, rest))), sc);
    AsyncReads(id, rest, sc);
  }

  lemma {:induction false} AsyncSinkStmtReads(l: Line, rest: Input, sc: Scope, eng: Engine)
    requires l.stmt.AsyncSink? && LineOk(l) && InScope(l.stmt, sc) && LiteralsOk(l.stmt, eng)
    ensures Reads(l, rest, sc, eng)
  {
    hide Word, Want, ConsumeSource, ReadMode, ReadCall, ClassThen, ArgsThen, ArgsOk, ArgsDefined;
    var AsyncSink(src, id, q, c, args) := l.stmt;
    var eol := Kw(if l.last then EOF else EOL, rest);
    var call := ClassThen(q, c, ArgsThen(args, false, CommaThen(l.trailing, eol)));
    var sc1 := sc.(consumed := sc.consumed + {src});
    var sc2 := sc1.(sinks := sc.sinks + {id});
    KwReads(SINK, Ident(src, Kw(ASYNC, Kw(AS, Ident(id, Kw(TO, call))))), sc);
    SourceReads(src, Kw(ASYNC, Kw(AS, Ident(id, Kw(TO, call)))), sc);
    ModeReads(id, call, sc1);
    assert sc2.sources + sc2.sinks == sc.sources + sc.sinks + {id};
    CallReads(q, c, args, l.trailing, l.last, rest, sc2, eng);
  }

  lemma {:induction false} PairReads(a: string, b: string, rest: Input, sc: Scope)
    requires Live(a, sc) && Live(b, sc) && a != b
    ensures ConsumePair(Ident(a, Kw(AND, Ident(b, rest))), sc)
         == Ok((a, b), rest, sc.(consumed := sc.consumed + {a, b}))
  {
    hide Word, Want, ConsumeSource;
    var sc1 := sc.(consumed := sc.consumed + {a});
    SourceReads(a, Kw(AND, Ident(b, rest)), sc);
    KwReads(AND, Ident(b, rest), sc1);
    SourceReads(b, rest, sc1);
    assert sc.consumed + {a} + {b} == sc.consumed + {a, b};
  }

  lemma {:induction false} UnionReads(a: string, b: string, id: string, last: bool, rest: Input, sc: Scope)
    requires Live(a, sc) && Live(b, sc) && a != b && id !in sc.sources
    ensures
      ReadUnion(Ident(a, Kw(AND, Ident(b, Kw(AS, Ident(id, Kw(if last then EOF else EOL, rest)))))), sc)
      == Ok((a, b, id), rest, sc.(consumed := sc.consumed + {a, b}, sources := sc.sources + {id}))
  {
    hide Word, Want, ConsumePair, DefineSource, ReadEol;
    var eol := Kw(if last then EOF else EOL, rest);
    var sc1 := sc.(consumed := sc.consumed + {a, b});
    PairReads(a, b, Kw(AS, Ident(id, eol)), sc);
    KwReads(AS, Ident(id, eol), sc1);
    SourceReads(id, eol, sc1);
    EolReads(last, rest, sc1.(sources := sc.sources + {id}));
  }

  lemma {:induction false} MergeStmtReads(l: Line, rest: Input, sc: Scope, eng: Engine)
    requires l.stmt.Merge? && LineOk(l) && InScope(l.stmt, sc)
    ensures Reads(l, rest, sc, eng)
  {
    hide Word, Want, ReadUnion;
    var Merge(a, b, id) := l.stmt;
    var eol := Kw(if l.last then EOF else EOL, rest);
    KwReads(MERGE, Ident(a, Kw(AND, Ident(b, Kw(AS, Ident(id, eol))))), sc);
    UnionReads(a, b, id, l.last, rest, sc);
  }

  lemma {:induction false} SplitReads(src: string, a: string, b: string, last: bool, rest: Input, sc: Scope)
    requires Live(src, sc) && a !in sc.sources && b !in sc.sources && a != b
    ensures
      ReadSplit(Ident(src, Kw(AS, Ident(a, Kw(AND, Ident(b, Kw(if last then EOF else EOL, rest)))))), sc)
      == Ok((src, a, b), rest, sc.(consumed := sc.consumed + {src}, sources := sc.sources + {a, b}))
  {
    hide Word, Want, ConsumeSource, DefineSource, ReadEol;
    var eol := Kw(if last then EOF else EOL, rest);
    var sc1 := sc.(consumed := sc.consumed + {src});
    var sc2 := sc1.(sources := sc.sources + {a});
    SourceReads(src, Kw(AS, Ident(a, Kw(AND, Ident(b, eol)))), sc);
    KwReads(AS, Ident(a, Kw(AND, Ident(b, eol))), sc1);
    SourceReads(a, Kw(AND, Ident(b, eol)), sc1);
    KwReads(AND, Ident(b, eol), sc2);
    SourceReads(b, eol, sc2);
    EolReads(last, rest, sc2.(sources := sc2.sources + {b}));
    assert sc.sources + {a} + {b} == sc.sources + {a, b};
  }

  lemma {:induction false} DupeStmtReads(l: Line, rest: Input, sc: Scope, eng: Engine)
    requires l.stmt.Dupe? && LineOk(l) && InScope(l.stmt, sc)
    ensures Reads(l, rest, sc, eng)
  {
    hide Word, Want, ReadSplit;
    var Dupe(src, a, b) := l.stmt;
    var eol := Kw(if l.last then EOF else EOL, rest);
    KwReads(DUPE, Ident(src, Kw(AS, Ident(a, Kw(AND, Ident(b, eol))))), sc);
    SplitReads(src, a, b, l.last, rest, sc);
  }

  lemma {:induction false} FanoutStmtReads(l: Line, rest: Input, sc: Scope, eng: Engine)
    requires l.stmt.Fanout? && LineOk(l) && InScope(l.stmt, sc)
    ensures Reads(l, rest, sc, eng)
  {
    hide Word, Want, ReadSplit;
    var Fanout(src, a, b) := l.stmt;
    var eol := Kw(if l.last then EOF else EOL, rest);
    KwReads(FANOUT, Ident(src, Kw(AS, Ident(a, Kw(AND, Ident(b, eol))))), sc);
    SplitReads(src, a, b, l.last, rest, sc);
  }

  lemma {:induction false} TargetReads(target: string, rest: Input, sc: Scope)
    requires target in sc.sources
    ensures ReadTarget(Kw(TO, Ident(target, rest)), sc) == Ok(target, rest, sc)
  {
  }

  lemma {:induction false} AppendStmtReads(l: Line, rest: Input, sc: Scope, eng: Engine)
    requires l.stmt.Append? && LineOk(l) && InScope(l.stmt, sc)
    ensures Reads(l, rest, sc, eng)
  {
    hide Word, Want, ConsumeSource, ReadTarget, ReadEol;
    var Append(src, target) := l.stmt;
    var eol := Kw(if l.last then EOF else EOL, rest);
    var sc1 := sc.(consumed := sc.consumed + {src});
    KwReads(APPEND, Ident(src, Kw(TO, Ident(target, eol))), sc);
    SourceReads(src, Kw(TO, Ident(target, eol)), sc);
    TargetReads(target, eol, sc1);
    EolReads(l.last, rest, sc1);
  }

  lemma {:induction false} CutHeadReads(delimiter: Option<string>, src: string, rest: Input, sc: Scope)
    requires src !in sc.consumed
    ensures ReadCutHead(DelimiterThen(delimiter, Ident(src, rest)), sc) == Ok((delimiter, src), rest, sc)
  {
    hide Word, Want, ReadDelimiter;
    DelimiterReads(delimiter, src, rest, sc);
    WantReads(IDENTIFIER, src, rest, sc);
  }

  lemma {:induction false} CutStmtReads(l: Line, rest: Input, sc: Scope, eng: Engine)
    requires l.stmt.Cut? && LineOk(l) && InScope(l.stmt, sc) && LiteralsOk(l.stmt, eng)
    ensures Reads(l, rest, sc, eng)
  {
    hide Word, Want, ReadCutHead, DelimiterThen, ReadFieldSet, FieldsThen, IntOk;
    var Cut(delimiter, src, fields) := l.stmt;
    var eol := Kw(if l.last then EOF else EOL, rest);
    var set_ := Kw(SET, Kw(LPAR, FieldsThen(fields, Kw(RPAR, eol))));
    KwReads(CUT, DelimiterThen(delimiter, Ident(src, set_)), sc);
    CutHeadReads(delimiter, src, set_, sc);
    FieldSetReads(fields, l.last, rest, sc);
  }

  lemma {:induction false} DelimiterReads(delimiter: Option<string>, src: string, rest: Input, sc: Scope)
    ensures ReadDelimiter(DelimiterThen(delimiter, Ident(src, rest)), sc) == Ok(delimiter, Ident(src, rest), sc)
  {
  }

  lemma {:induction false} FieldSetReads(fields: seq<(string, string)>, last: bool, rest: Input, sc: Scope)
    requires fields != [] && FieldsOk(fields)
    ensures
      ReadFieldSet(Kw(SET, Kw(LPAR, FieldsThen(fields, Kw(RPAR, Kw(if last then EOF else EOL, rest))))), sc)
      == Ok(fields, rest, sc)
  {
    hide Word, Want, ReadFields, FieldsThen, ReadEol, IntOk;
    var eol := Kw(if last then EOF else EOL, rest);
    KwReads(SET, Kw(LPAR, FieldsThen(fields, Kw(RPAR, eol))), sc);
    KwReads(LPAR, FieldsThen(fields, Kw(RPAR, eol)), sc);
    FieldsRead(fields, eol, sc);
    EolReads(last, rest, sc);
  }

  lemma {:induction false} SubjectReads(src: string, rest: Input, sc: Scope)
    requires Live(src, sc)
    ensures ReadSubject(Ident(src, Kw(WITH, rest)), sc) == Ok(src, rest, sc)
  {
  }

  lemma {:induction false} TagStmtReads(l: Line, rest: Input, sc: Scope, eng: Engine)
    requires l.stmt.Tag? && LineOk(l) && InScope(l.stmt, sc)
    ensures Reads(l, rest, sc, eng)
  {
    hide Word, Want, ReadSubject, ReadEol;
    var Tag(src, tag) := l.stmt;
    var eol := Kw(if l.last then EOF else EOL, rest);
    KwReads(TAG, Ident(src, Kw(WITH, One(STRING, tag, eol))), sc);
    SubjectReads(src, One(STRING, tag, eol), sc);
    WantReads(STRING, tag, eol, sc);
    EolReads(l.last, rest, sc);
  }

  lemma {:induction false} JoinStmtReads(l: Line, rest: Input, sc: Scope, eng: Engine)
    requires l.stmt.Join? && LineOk(l) && InScope(l.stmt, sc) && LiteralsOk(l.stmt, eng)
    ensures Reads(l, rest, sc, eng)
  {
    hide Word, Want, ReadSubject, ReadPatterns, PatternsThen, ReadEol, Escape;
    var Join(src, patterns) := l.stmt;
    var eol := Kw(if l.last then EOF else EOL, rest);
    KwReads(JOIN, Ident(src, Kw(WITH, PatternsThen(patterns, eol))), sc);
    SubjectReads(src, PatternsThen(patterns, eol), sc);
    KwReads(if l.last then EOF else EOL, rest, sc);
    PatternsRead(patterns, eol, sc, eng);
    EolReads(l.last, rest, sc);
  }

  lemma {:induction false} StmtReads(l: Line, rest: Input, sc: Scope, eng: Engine)
    requires LineOk(l) && InScope(l.stmt, sc) && LiteralsOk(l.stmt, eng)
    ensures Reads(l, rest, sc, eng)
  {
    hide Reads, LineOk, InScope, LiteralsOk;
    match l.stmt
    case Blank => BlankReads(l, rest, sc, eng);
    case Source(_, _, _, _) => SourceStmtReads(l, rest, sc, eng);
    case Sink(_, _, _, _) => SinkStmtReads(l, rest, sc, eng);
    case AsyncSink(_, _, _, _, _) => AsyncSinkStmtReads(l, rest, sc, eng);
    case Merge(_, _, _) => MergeStmtReads(l, rest, sc, eng);
    case Dupe(_, _, _) => DupeStmtReads(l, rest, sc, eng);
    case Append(_, _) => AppendStmtReads(l, rest, sc, eng);
    case Cut(_, _, _) => CutStmtReads(l, rest, sc, eng);
    case Fanout(_, _, _) => FanoutStmtReads(l, rest, sc, eng);
    case Tag(_, _) => TagStmtReads(l, rest, sc, eng);
    case Join(_, _) => JoinStmtReads(l, rest, sc, eng);
  }

  lemma {:induction false} BlankReads(l: Line, rest: Input, sc: Scope, eng: Engine)
    requires l.stmt.Blank? && LineOk(l)
    ensures Reads(l, rest, sc, eng)
  {
    KwReads(EOL, rest, sc);
  }

  // ----- The parser accepts exactly the grammar, within the rules of scope ---------------------

  lemma {:induction false} ScriptTakes(xs: Input, sc: Scope, eng: Engine) returns (lines: seq<Line>)
    requires Ready(xs) && ReadScript(xs, sc, eng).Done?
    ensures
      var r := ReadScript(xs, sc, eng);
      && LinesOk(lines) && ScriptShapes(lines) == xs && Stmts(lines) == r.stmts
      && ScriptInScope(r.stmts, sc, eng) && r.scope == AfterAll(r.stmts, sc)
    decreases |xs|
  {
    hide ReadStmt, InScope, LiteralsOk, LineOk, After, LineThen;
    if Head(xs).typ.EOF? {
      assert xs == [Fixed(EOF)];
      return [];
    }
    var l := StmtTakes(xs, sc, eng);
    var r := ReadStmt(xs, sc, eng);
    var more: seq<Line> := [];
    if !l.last {
      more := ScriptTakes(r.rest, r.scope, eng);
    }
    lines := [l] + more;
    assert lines[1..] == more;
    assert ([r.value] + Stmts(more))[1..] == Stmts(more);
  }

  lemma {:induction false} ScriptReads(lines: seq<Line>, sc: Scope, eng: Engine)
    requires LinesOk(lines) && ScriptInScope(Stmts(lines), sc, eng)
    ensures ReadScript(ScriptShapes(lines), sc, eng) == Done(Stmts(lines), AfterAll(Stmts(lines), sc))
  {
    hide ReadStmt, InScope, LiteralsOk, After, StmtThen;
    if lines != [] {
      var l := lines[0];
      var rest := if l.last then [] else ScriptShapes(lines[1..]);
      assert Stmts(lines)[1..] == Stmts(lines[1..]);
      StmtReads(l, rest, sc, eng);
      FirstIsNotLast(l, rest);
      if l.last {
        assert lines[1..] == [];
      } else {
        ScriptReads(lines[1..], After(l.stmt, sc), eng);
      }
    }
  }

  /** A line does not start with EOF or an error. */
  lemma {:induction false} FirstIsNotLast(l: Line, rest: Input)
    requires LineOk(l)
    ensures !Head(LineThen(l, rest)).typ.EOF? && !Head(LineThen(l, rest)).typ.ERR?
  {
  }

  /** The parser accepts a list of tokens exactly if the grammar derives it as lines that keep the
      rules of scope, and it returns their statements and the scope they leave. */
  lemma {:induction false} ParserIsGrammar(xs: Input, sc: Scope, eng: Engine)
    requires Ready(xs)
    ensures ReadScript(xs, sc, eng).Done? <==>
      exists lines :: LinesOk(lines) && ScriptShapes(lines) == xs && ScriptInScope(Stmts(lines), sc, eng)
    ensures forall lines ::
      LinesOk(lines) && ScriptShapes(lines) == xs && ScriptInScope(Stmts(lines), sc, eng)
      ==> ReadScript(xs, sc, eng) == Done(Stmts(lines), AfterAll(Stmts(lines), sc))
  {
    hide ReadScript, ScriptInScope, ScriptShapes, LinesOk;
    if ReadScript(xs, sc, eng).Done? {
      var lines := ScriptTakes(xs, sc, eng);
    }
    forall lines | LinesOk(lines) && ScriptShapes(lines) == xs && ScriptInScope(Stmts(lines), sc, eng)
      ensures ReadScript(xs, sc, eng) == Done(Stmts(lines), AfterAll(Stmts(lines), sc))
    {
      ScriptReads(lines, sc, eng);
    }
  }
}
