/** Texts at which the parser and the runtime do not do what one would expect of them. */
module Witnesses {
  import opened Options
  import opened Runes
  import opened Tokens
  import opened LexSpec
  import opened LexTheorems
  import opened LexPrint
  import opened Syntax
  import opened Decode
  import opened ParseSpec
  import opened Grammar
  import opened RoundTrip
  import opened Commas
  import opened Dsl
  import opened RuntimeSpec
  import opened Dataflow
  import opened Meaning
  import opened Simulation

  // ----- Texts of plain tokens -----------------------------------------------------------------

  /** A short token that the lexer finds again. */
  predicate Plain(x: Shape) { WellFormed(x) && !SpellsKeyword(x) && |x.text| <= 6 }

  lemma {:induction false} PlainKeywords()
    ensures Plain(Fixed(SOURCE)) && Plain(Fixed(SINK)) && Plain(Fixed(APPEND)) && Plain(Fixed(AS)) && Plain(Fixed(TO))
    ensures Plain(Fixed(ASYNC))
  {
    hide Plain, Word;
    forall typ | typ in {SOURCE, SINK, APPEND, AS, TO, ASYNC}
      ensures Plain(Fixed(typ))
    {
      PlainKeyword(typ);
    }
  }

  lemma {:induction false} PlainKeyword(typ: TokenType)
    requires typ in {SOURCE, SINK, APPEND, AS, TO, ASYNC}
    ensures Plain(Fixed(typ))
  {
    match typ
    case SOURCE =>
    case SINK =>
    case APPEND =>
    case ASYNC =>
    case _ =>
  }

  lemma {:induction false} PlainMarks()
    ensures Plain(Fixed(DOT)) && Plain(Fixed(EOL))
  {
  }

  lemma {:induction false} PlainName(c: char)
    requires IsAlpha(c)
    ensures Plain(Shape(IDENTIFIER, [c]))
  {
  }

  /** The tokens of the statements below. */
  lemma {:induction false} PlainStmt(s: Stmt)
    requires s == Source("a", "p", "c", []) || s == Source("b", "p", "c", []) || s == Sink("a", "p", "c", [])
      || s == AsyncSink("a", "s", "p", "c", []) || s == Append("b", "a") || s == Append("a", "a")
    ensures EveryBit(x => Plain(x), Bits(s)) && |Bits(s)| <= 9
  {
    hide Plain, Word;
    PlainKeywords();
    PlainMarks();
    PlainName('a');
    PlainName('b');
    PlainName('c');
    PlainName('p');
    PlainName('s');
  }

  lemma {:induction false} PlainLines(lines: seq<Line>)
    requires forall k :: 0 <= k < |lines| ==> EveryBit(x => Plain(x), Bits(lines[k].stmt))
    ensures EveryBit(x => Plain(x), LinesBits(lines))
  {
    hide Plain, Bits, Word;
    PlainMarks();
    if lines != [] {
      PlainLines(lines[1..]);
      assert EveryBit(x => Plain(x), Bits(lines[0].stmt));
    }
  }

  lemma {:induction false} PlainBits(bits: seq<Bit>)
    requires EveryBit(x => Plain(x), bits)
    ensures AllWellFormed(bits) && CommaSafe(bits) && ShortBits(bits, 6)
  {
    hide WellFormed, SpellsKeyword;
    forall k | 0 <= k < |bits|
      ensures Plain(bits[k].shape)
    {
    }
  }

  /** Each line of such a script has at most ten tokens. */
  lemma {:induction false} LinesLength(lines: seq<Line>)
    requires forall k :: 0 <= k < |lines| ==> |Bits(lines[k].stmt)| <= 9
    ensures |LinesBits(lines)| <= 10 * |lines|
  {
    hide Bits, Word;
    if lines != [] {
      LinesLength(lines[1..]);
      assert |Bits(lines[0].stmt)| <= 9;
    }
  }

  function CanonicalText(stmts: seq<Stmt>): string { Print(LinesBits(Canonical(stmts))) }

  /** The canonical text of a few such statements parses. */
  lemma {:induction false} PlainTextParses(stmts: seq<Stmt>, eng: Engine)
    requires ScriptInScope(stmts, NO_SCOPE, eng) && |LinesBits(Canonical(stmts))| <= 36
    requires forall k :: 0 <= k < |stmts| ==> EveryBit(x => Plain(x), Bits(stmts[k]))
    ensures ReadScript(TokensOf(CanonicalText(stmts)), NO_SCOPE, eng) == Done(stmts, AfterAll(stmts, NO_SCOPE))
  {
    hide *;
    var lines := Canonical(stmts);
    var bits := LinesBits(lines);
    CanonicalLines(stmts);
    PlainLines(lines);
    PlainBits(bits);
    PrintLength(bits, 6);
    assert CanonicalText(stmts) == Print(bits) by { CanonicalTextIs(stmts); }
    WideWindowFits(Print(bits), 255);
    TokensOfIs(Print(bits));
    PlainFormed(stmts);
    LinesRoundTrip(lines, NO_SCOPE, eng, 255);
  }

  lemma {:induction false} PlainFormed(stmts: seq<Stmt>)
    requires forall k :: 0 <= k < |stmts| ==> EveryBit(x => Plain(x), Bits(stmts[k]))
    ensures StmtsFormed(stmts)
  {
    hide Bits, EveryBit, AllWellFormed;
    forall k | 0 <= k < |stmts|
      ensures AllWellFormed(Bits(stmts[k]))
    {
      PlainBits(Bits(stmts[k]));
    }
  }

  lemma {:induction false} CanonicalTextIs(stmts: seq<Stmt>)
    ensures CanonicalText(stmts) == Print(LinesBits(Canonical(stmts)))
  {
  }

  lemma {:induction false} TokensOfIs(text: string)
    ensures TokensOf(text) == Shapes(Lex(text, 255))
  {
  }

  // ----- A cut of an unknown iterator ----------------------------------------------------------

  /** A text that parses and cannot be executed: a cut of an iterator that nothing defines. */
  lemma {:induction false} UnknownCutParses(eng: Engine, dry: bool, env: Env)
    ensures
      var p := ReadScript(TokensOf(Print(TIGHT_CUT)), NO_SCOPE, eng);
      p.Done? && RunOf(NO_TABLE, Nodes(p.stmts), dry, env).err == Some(UndefinedID)
  {
    hide *;
    KeywordFieldFails(eng);
    TokensOfIs(Print(TIGHT_CUT));
    OneCut(dry, env);
  }

  lemma {:induction false} OneCut(dry: bool, env: Env)
    ensures RunOf(NO_TABLE, Nodes([TO_FIELD]), dry, env).err == Some(UndefinedID)
  {
    hide FieldSets, Text;
    assert !IsSpace("a"[0]);
    assert Nodes([TO_FIELD]) == [NodeOf(TO_FIELD)] + Nodes([]);
    assert StepOf(NO_TABLE, FieldsOf(TO_FIELD), dry, env).err == Some(UndefinedID);
  }

  // ----- An append to a consumed iterator ------------------------------------------------------

  /** An append to an iterator that a sink has consumed. Its text is

      source as a p.c
      sink a to p.c
      source as b p.c
      append b to a */
  const LATE_APPEND := [Source("a", "p", "c", []), Sink("a", "p", "c", []), Source("b", "p", "c", []), Append("b", "a")]

  lemma {:induction false} LateAppendInScope(eng: Engine)
    ensures
      && ScriptInScope(LATE_APPEND, NO_SCOPE, eng)
      && ScopeAt(LATE_APPEND, NO_SCOPE, 3) == Scope({"a", "b"}, {"a"}, {})
  {
    var sc1, sc2, sc3 := Scope({"a"}, {}, {}), Scope({"a"}, {"a"}, {}), Scope({"a", "b"}, {"a"}, {});
    var stmts := LATE_APPEND;
    assert After(stmts[0], NO_SCOPE) == sc1 && After(stmts[1], sc1) == sc2 && After(stmts[2], sc2) == sc3;
    assert ScriptInScope(stmts[3..], sc3, eng);
    assert stmts[2..][1..] == stmts[3..] && stmts[1..][1..] == stmts[2..];
    assert ScriptInScope(stmts[2..], sc2, eng);
    assert ScriptInScope(stmts[1..], sc1, eng);
    ScopeAtTail(stmts, NO_SCOPE, 3);
    ScopeAtTail(stmts[1..], sc1, 2);
    ScopeAtTail(stmts[2..], sc2, 1);
    NothingBefore(stmts[3..], sc3);
  }

  lemma {:induction false} LateAppendNames()
    ensures AllNamesOk(LATE_APPEND)
  {
    assert !IsSpace("a"[0]) && !IsSpace("b"[0]);
    forall k | 0 <= k < 4
      ensures NamesOk(LATE_APPEND[k])
    {
    }
  }

  lemma {:induction false} LateAppendOffends()
    ensures
      && |LATE_APPEND| == 4 && LATE_APPEND[3].Append? && Offends(LATE_APPEND[3], Scope({"a", "b"}, {"a"}, {}))
      && forall k, sc :: 0 <= k < 3 ==> !Offends(LATE_APPEND[k], sc)
  {
  }

  lemma {:induction false} LateAppendLength()
    ensures |LinesBits(Canonical(LATE_APPEND))| == 26
  {
    hide Word;
    var lines := Canonical(LATE_APPEND);
    assert |LinesBits(lines[3..])| == 5;
    assert lines[2..][1..] == lines[3..] && lines[1..][1..] == lines[2..];
    assert |LinesBits(lines[2..])| == 12;
    assert |LinesBits(lines[1..])| == 19;
  }

  lemma {:induction false} LateAppendParses(eng: Engine)
    ensures ReadScript(TokensOf(CanonicalText(LATE_APPEND)), NO_SCOPE, eng)
         == Done(LATE_APPEND, AfterAll(LATE_APPEND, NO_SCOPE))
  {
    hide *;
    LateAppendInScope(eng);
    LateAppendPlain();
    LateAppendLength();
    PlainTextParses(LATE_APPEND, eng);
  }

  lemma {:induction false} LateAppendPlain()
    ensures forall k :: 0 <= k < |LATE_APPEND| ==> EveryBit(x => Plain(x), Bits(LATE_APPEND[k]))
  {
    hide Plain, Bits, EveryBit;
    forall k | 0 <= k < 4
      ensures EveryBit(x => Plain(x), Bits(LATE_APPEND[k]))
    {
      PlainStmt(LATE_APPEND[k]);
    }
  }

  /** That text parses; but whatever the plugins do, it is never executed to the end, and if they do not
      fail, the append is at fault. */
  lemma {:induction false} LateAppendFails(eng: Engine, dry: bool, env: Env)
    ensures
      var r := RunOf(NO_TABLE, Nodes(LATE_APPEND), dry, env);
      && r.err.Some?
      && (IsIdErr(r.err.value) ==> r.done == 3 && r.err == Some(ConsumedID))
      && (NoPluginErrs(env) ==> r.err == Some(ConsumedID))
    ensures ReadScript(TokensOf(CanonicalText(LATE_APPEND)), NO_SCOPE, eng)
         == Done(LATE_APPEND, AfterAll(LATE_APPEND, NO_SCOPE))
  {
    hide *;
    LateAppendParses(eng);
    LateAppendInScope(eng);
    LateAppendNames();
    LateAppendOffends();
    FreshFollows();
    RunFollows(LATE_APPEND, NO_SCOPE, eng, NO_TABLE, dry, env);
    NodesLength(LATE_APPEND);
    if NoneOffends(LATE_APPEND, NO_SCOPE, 4) {
      OffendsNever(LATE_APPEND, NO_SCOPE, 4, 3);
    }
  }

  lemma {:induction false} OffendsNever(stmts: seq<Stmt>, sc: Scope, n: nat, k: nat)
    requires k < n <= |stmts| && NoneOffends(stmts, sc, n)
    ensures !Offends(stmts[k], ScopeAt(stmts, sc, k))
  {
  }

  // ----- An append of an iterator to itself ----------------------------------------------------

  /** Its text is

      source as a p.c
      append a to a */
  const SELF_APPEND := [Source("a", "p", "c", []), Append("a", "a")]

  lemma {:induction false} SelfAppendInScope(eng: Engine)
    ensures ScriptInScope(SELF_APPEND, NO_SCOPE, eng)
    ensures ScopeAt(SELF_APPEND, NO_SCOPE, 0) == NO_SCOPE && ScopeAt(SELF_APPEND, NO_SCOPE, 1) == Scope({"a"}, {}, {})
  {
    var sc1 := Scope({"a"}, {}, {});
    var stmts := SELF_APPEND;
    assert After(stmts[0], NO_SCOPE) == sc1;
    assert ScriptInScope(stmts[1..], sc1, eng);
    NothingBefore(stmts, NO_SCOPE);
    ScopeAtTail(stmts, NO_SCOPE, 1);
    NothingBefore(stmts[1..], sc1);
  }

  lemma {:induction false} SelfAppendPlain()
    ensures |LinesBits(Canonical(SELF_APPEND))| <= 20
    ensures forall k :: 0 <= k < |SELF_APPEND| ==> EveryBit(x => Plain(x), Bits(SELF_APPEND[k]))
  {
    hide Plain, Bits, EveryBit, LinesBits;
    PlainStmt(SELF_APPEND[0]);
    PlainStmt(SELF_APPEND[1]);
    LinesLength(Canonical(SELF_APPEND));
  }

  lemma {:induction false} SelfAppendSafe()
    ensures |SELF_APPEND| == 2 && SELF_APPEND[1].Append? && SELF_APPEND[1].src == SELF_APPEND[1].target
    ensures NoneOffends(SELF_APPEND, NO_SCOPE, 2) && Passes(SELF_APPEND, NO_SCOPE, 1)
  {
    SelfAppendInScope(Engine(x => true, x => true));
  }

  /** That text parses and, if plugins do not fail, runs to its end; and its run hands an iterator over
      twice. */
  lemma {:induction false} SelfAppendRuns(eng: Engine, env: Env)
    ensures
      var r := RunOf(NO_TABLE, Nodes(SELF_APPEND), false, env);
      NoPluginErrs(env) ==> r.err.None? && !Distinct(Handed(r.table.calls))
    ensures ReadScript(TokensOf(CanonicalText(SELF_APPEND)), NO_SCOPE, eng)
         == Done(SELF_APPEND, AfterAll(SELF_APPEND, NO_SCOPE))
  {
    hide *;
    SelfAppendInScope(eng);
    SelfAppendPlain();
    PlainTextParses(SELF_APPEND, eng);
    SelfAppendSafe();
    if NoPluginErrs(env) {
      ParsedTextRuns(CanonicalText(SELF_APPEND), eng, false, env);
      ParsedTextLinearIff(CanonicalText(SELF_APPEND), eng, env);
    }
  }

  // ----- The order of an append ----------------------------------------------------------------

  /** Its text is

      source as a p.c
      source as b p.c
      append b to a */
  const APPEND_PAIR := [Source("a", "p", "c", []), Source("b", "p", "c", []), Append("b", "a")]

  lemma {:induction false} AppendPairInScope(eng: Engine)
    ensures ScriptInScope(APPEND_PAIR, NO_SCOPE, eng)
    ensures |APPEND_PAIR| == 3 && NoneOffends(APPEND_PAIR, NO_SCOPE, 3)
  {
    var sc1, sc2 := Scope({"a"}, {}, {}), Scope({"a", "b"}, {}, {});
    var stmts := APPEND_PAIR;
    assert After(stmts[0], NO_SCOPE) == sc1 && After(stmts[1], sc1) == sc2;
    assert ScriptInScope(stmts[2..], sc2, eng);
    assert stmts[1..][1..] == stmts[2..];
    assert ScriptInScope(stmts[1..], sc1, eng);
    ScopeAtTail(stmts, NO_SCOPE, 2);
    ScopeAtTail(stmts[1..], sc1, 1);
    NothingBefore(stmts[2..], sc2);
  }

  lemma {:induction false} AppendPairPlain()
    ensures |LinesBits(Canonical(APPEND_PAIR))| <= 30
    ensures forall k :: 0 <= k < |APPEND_PAIR| ==> EveryBit(x => Plain(x), Bits(APPEND_PAIR[k]))
  {
    hide Plain, Bits, EveryBit, LinesBits;
    PlainStmt(APPEND_PAIR[0]);
    PlainStmt(APPEND_PAIR[1]);
    PlainStmt(APPEND_PAIR[2]);
    LinesLength(Canonical(APPEND_PAIR));
  }

  lemma {:induction false} AppendPairMeans(w: World)
    ensures MeansAll(APPEND_PAIR, NO_FLOW, w).of
         == map["a" := w.source(0, "p", "c", []) + w.source(1, "p", "c", [])]
  {
    var stmts := APPEND_PAIR;
    var xs, ys := w.source(0, "p", "c", []), w.source(1, "p", "c", []);
    var m1 := Flow(map["a" := xs], [], 1);
    var m2 := Flow(map["a" := xs, "b" := ys], [], 2);
    assert Means(stmts[0], NO_FLOW, w) == m1 && Means(stmts[1], m1, w) == m2;
    assert Means(stmts[2], m2, w).of == map["a" := xs + ys];
    assert stmts[1..][1..] == stmts[2..] && stmts[2..][1..] == [];
    assert MeansAll(stmts[2..], m2, w) == Means(stmts[2], m2, w);
    assert MeansAll(stmts[1..], m1, w) == MeansAll(stmts[2..], m2, w);
  }

  /** That text parses; if plugins do not fail, a then yields the entries of the source that it was opened
      for first, and those of the other source behind them. */
  lemma {:induction false} AppendPairYields(eng: Engine, env: Env, w: World)
    requires NoPluginErrs(env)
    ensures
      var r := RunOf(NO_TABLE, Nodes(APPEND_PAIR), false, env);
      && r.err.None? && "a" in r.table.ids
      && Yields(r.table.calls, Get(r.table, "a"), w) == w.source(0, "p", "c", []) + w.source(1, "p", "c", [])
    ensures ReadScript(TokensOf(CanonicalText(APPEND_PAIR)), NO_SCOPE, eng)
         == Done(APPEND_PAIR, AfterAll(APPEND_PAIR, NO_SCOPE))
  {
    hide *;
    AppendPairInScope(eng);
    AppendPairPlain();
    PlainTextParses(APPEND_PAIR, eng);
    ParsedTextMeans(CanonicalText(APPEND_PAIR), eng, env, w, 3);
    AppendPairMeans(w);
    FreshDoes(w);
    assert APPEND_PAIR[..3] == APPEND_PAIR;
    DoesYield(RunOf(NO_TABLE, Nodes(APPEND_PAIR), false, env).table, MeansAll(APPEND_PAIR, NO_FLOW, w), w, "a");
  }

  // ----- An asynchronous sink that fails -------------------------------------------------------

  /** Its text is

      source as a p.c
      sink a async as s to p.c */
  const ASYNC_SINK := [Source("a", "p", "c", []), AsyncSink("a", "s", "p", "c", [])]

  lemma {:induction false} AsyncSinkInScope(eng: Engine)
    ensures ScriptInScope(ASYNC_SINK, NO_SCOPE, eng)
  {
    var sc1 := Scope({"a"}, {}, {});
    assert After(ASYNC_SINK[0], NO_SCOPE) == sc1;
    assert ScriptInScope(ASYNC_SINK[1..], sc1, eng);
  }

  lemma {:induction false} AsyncSinkPlain()
    ensures |LinesBits(Canonical(ASYNC_SINK))| <= 20
    ensures forall k :: 0 <= k < |ASYNC_SINK| ==> EveryBit(x => Plain(x), Bits(ASYNC_SINK[k]))
  {
    hide Plain, Bits, EveryBit, LinesBits;
    PlainStmt(ASYNC_SINK[0]);
    PlainStmt(ASYNC_SINK[1]);
    LinesLength(Canonical(ASYNC_SINK));
  }

  /** That text parses; if the call of its sink fails, so does the run, as if it were synchronous. */
  lemma {:induction false} AsyncSinkFails(eng: Engine, env: Env)
    requires env.knowsSource("p", "c") && env.knowsSink("p", "c") && !env.fails(0) && env.fails(1)
    ensures
      var r := RunOf(NO_TABLE, Nodes(ASYNC_SINK), false, env);
      r.err == Some(CallFailed) && r.done == 1
    ensures ReadScript(TokensOf(CanonicalText(ASYNC_SINK)), NO_SCOPE, eng)
         == Done(ASYNC_SINK, AfterAll(ASYNC_SINK, NO_SCOPE))
  {
    hide *;
    AsyncSinkInScope(eng);
    AsyncSinkPlain();
    PlainTextParses(ASYNC_SINK, eng);
    AsyncSinkRun(env);
  }

  lemma {:induction false} AsyncSinkRun(env: Env)
    requires env.knowsSource("p", "c") && env.knowsSink("p", "c") && !env.fails(0) && env.fails(1)
    ensures
      var r := RunOf(NO_TABLE, Nodes(ASYNC_SINK), false, env);
      r.err == Some(CallFailed) && r.done == 1
  {
    hide Text;
    assert !IsSpace("a"[0]);
    var t := SourceStep(NO_TABLE, "a", true, false, false, SourceCall("p", "c", [])).table;
    var rest := [ASYNC_SINK[1]];
    assert Nodes(ASYNC_SINK)[1..] == Nodes(rest) && Nodes(rest)[1..] == [];
    assert StepOf(NO_TABLE, FieldsOf(ASYNC_SINK[0]), false, env) == Step(t, None);
    assert StepOf(t, FieldsOf(ASYNC_SINK[1]), false, env).err == Some(CallFailed);
  }

  // ----- A comma behind the last argument ------------------------------------------------------

  const WITH_ARG := Source("a", "p", "c", [Shape(INT, "1")])

  /** source as a p.c 1, */
  const TRAILING_COMMA := Bits(WITH_ARG) + [Glued(COMMA), Glued(EOL)]

  lemma {:induction false} TrailingCommaBits()
    ensures
      && |TRAILING_COMMA| == 9
      && TRAILING_COMMA[0] == Glued(SOURCE) && TRAILING_COMMA[1] == Spc(AS) && TRAILING_COMMA[2] == Id("a")
      && TRAILING_COMMA[3] == Id("p") && TRAILING_COMMA[4] == Glued(DOT)
      && TRAILING_COMMA[5] == Bit(false, Shape(IDENTIFIER, "c")) && TRAILING_COMMA[6] == Bit(true, Shape(INT, "1"))
      && TRAILING_COMMA[7] == Glued(COMMA) && TRAILING_COMMA[8] == Glued(EOL)
  {
    hide Word;
  }

  lemma {:induction false} PlainOne()
    ensures Plain(Shape(INT, "1")) && Plain(Fixed(COMMA)) && IntOk("1")
  {
  }

  lemma {:induction false} TrailingCommaPlain()
    ensures EveryBit(x => Plain(x), TRAILING_COMMA)
  {
    hide Plain, Word, TRAILING_COMMA;
    TrailingCommaBits();
    PlainKeywords();
    PlainMarks();
    PlainName('a');
    PlainName('c');
    PlainName('p');
    PlainOne();
  }

  lemma {:induction false} TrailingCommaApart()
    ensures forall k :: 0 <= k < |TRAILING_COMMA| - 1 ==> Apart(TRAILING_COMMA[k], TRAILING_COMMA[k + 1])
    ensures TRAILING_COMMA[|TRAILING_COMMA| - 1].shape.typ != IDENTIFIER
  {
    hide WellFormed, TRAILING_COMMA, KeywordType;
    TrailingCommaBits();
    TrailingCommaPlain();
    assert KeywordType("a") == KeywordType("p") == KeywordType("c") == IDENTIFIER by { ShortNames(); }
    assert KeywordType(",") != COMMA && KeywordType(".") != DOT by { NoWords(); }
  }

  lemma {:induction false} ShortNames()
    ensures KeywordType("a") == KeywordType("p") == KeywordType("c") == IDENTIFIER
  {
  }

  lemma {:induction false} NoWords()
    ensures KeywordType(",") != COMMA && KeywordType(".") != DOT
  {
  }

  lemma {:induction false} WithArgOk(eng: Engine)
    ensures ScriptInScope([WITH_ARG], NO_SCOPE, eng) && Counted(WITH_ARG)
  {
    PlainOne();
    assert ArgsOk([Shape(INT, "1")], eng);
  }

  lemma {:induction false} TrailingCommaShapes()
    ensures
      var lines := [Line(WITH_ARG, true, false)];
      && LinesOk(lines) && Stmts(lines) == [WITH_ARG] && !NoTrailing(lines)
      && ScriptShapes(lines) == BitShapes(TRAILING_COMMA) + [Fixed(EOF)]
  {
    hide StmtThen, Bits, Word;
    var lines := [Line(WITH_ARG, true, false)];
    var ending := Kw(COMMA, Kw(EOL, [Fixed(EOF)]));
    assert lines[1..] == [];
    StmtShapes(WITH_ARG, ending);
    ConcatShapes(Bits(WITH_ARG), [Glued(COMMA), Glued(EOL)]);
    assert lines[0].trailing;
  }

  lemma {:induction false} TrailingCommaTokens()
    ensures TokensOf(Print(TRAILING_COMMA)) == BitShapes(TRAILING_COMMA) + [Fixed(EOF)]
  {
    hide *;
    TrailingCommaBits();
    TrailingCommaPlain();
    PlainBits(TRAILING_COMMA);
    TrailingCommaApart();
    ApartBits(TRAILING_COMMA);
    PrintLength(TRAILING_COMMA, 6);
    WideWindowFits(Print(TRAILING_COMMA), 255);
    LexPrinted(TRAILING_COMMA, 255);
    TokensOfIs(Print(TRAILING_COMMA));
  }

  /** That text parses, and the grammar as it is written does not derive it. */
  lemma {:induction false} TrailingCommaParses(eng: Engine)
    ensures
      var xs := TokensOf(Print(TRAILING_COMMA));
      && ReadScript(xs, NO_SCOPE, eng) == Done([WITH_ARG], AfterAll([WITH_ARG], NO_SCOPE))
      && !exists lines :: DerivedAsWritten(lines, xs, NO_SCOPE, eng)
  {
    hide *;
    var lines := [Line(WITH_ARG, true, false)];
    TrailingCommaTokens();
    TrailingCommaShapes();
    WithArgOk(eng);
    ScriptReads(lines, NO_SCOPE, eng);
    ScriptParts(lines, NO_SCOPE, eng);
    TrailingCommaEnds(lines);
    TokensOfIs(Print(TRAILING_COMMA));
    ReadyLex(Print(TRAILING_COMMA), 255);
    WrittenGrammarIff(TokensOf(Print(TRAILING_COMMA)), NO_SCOPE, eng);
  }
}
