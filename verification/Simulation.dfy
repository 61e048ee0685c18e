/** The parser's static checks against the runtime's table. */
module Simulation {
  import opened Options
  import opened Runes
  import opened Tokens
  import opened LexSpec
  import opened LexTheorems
  import opened LexPrint
  import opened Syntax
  import opened ParseSpec
  import opened Grammar
  import opened RoundTrip
  import opened Streams
  import opened Parser
  import opened Dsl
  import opened RuntimeSpec
  import opened Dataflow
  import opened Values
  import opened Meaning

  // ----- The identifiers of a script are never blank -------------------------------------------

  predicate Named(x: Shape) {
    x.typ == IDENTIFIER ==> !EmptyId(x.text)
  }

  lemma {:induction false} ScanIsNamed(t: string, cap: nat)
    requires t != "" && 1 <= cap && ScanAt(t, cap).Tok?
    ensures
      var r := ScanAt(t, cap);
      Named(Shape(r.typ, t[r.from..r.to]))
  {
    hide Span, CloseOf, ErrorText, KeywordType;
    var r := ScanAt(t, cap);
    if r.typ == IDENTIFIER {
      assert t[r.from..r.to][0] == t[r.from];
    }
  }

  lemma {:induction false} RunIsNamed(t: string, line: nat, cap: nat)
    requires 1 <= cap
    ensures
      var ts := LexFrom(t, line, cap);
      forall k :: 0 <= k < |ts| ==> Named(ShapeOf(ts[k]))
    decreases |t|
  {
    hide Skip, ScanAt, Span, LexFrom, LexAt, EmptyId;
    var rest := Skip(t);
    if rest == "" || !ScanAt(rest, cap).Tok? {
      RunStops(t, line, cap);
    } else {
      var r := ScanAt(rest, cap);
      RunStep(t, line, cap);
      ScanIsNamed(rest, cap);
      RunIsNamed(rest[r.to..], NextLine(line, r.typ), cap);
    }
  }

  /** The iterators that a statement names. */
  function Names(s: Stmt): set<string> {
    match s
    case Blank => {}
    case Source(id, _, _, _) => {id}
    case Sink(src, _, _, _) => {src}
    case AsyncSink(src, _, _, _, _) => {src}
    case Merge(a, b, id) => {a, b, id}
    case Dupe(src, a, b) => {src, a, b}
    case Append(src, target) => {src, target}
    case Cut(_, src, _) => {src}
    case Fanout(src, a, b) => {src, a, b}
    case Tag(src, _) => {src}
    case Join(src, _) => {src}
  }

  ghost predicate NamesOk(s: Stmt) {
    forall id :: id in Names(s) ==> !EmptyId(id)
  }

  lemma {:induction false} NameAt(bits: seq<Bit>, k: nat, id: string)
    requires EveryBit(x => Named(x), bits) && k < |bits| && bits[k] == Id(id)
    ensures !EmptyId(id)
  {
  }

  lemma {:induction false} NamesOfBits(s: Stmt)
    requires EveryBit(x => Named(x), Bits(s))
    ensures NamesOk(s)
  {
    hide Word, EmptyId, ArgBits, FieldBits, EveryBit, Id;
    var bits := Bits(s);
    match s
    case Blank =>
    case Source(id, _, _, _) => NameAt(bits, 2, id);
    case Sink(src, _, _, _) => NameAt(bits, 1, src);
    case AsyncSink(src, _, _, _, _) => NameAt(bits, 1, src);
    case Merge(a, b, id) => ThreeNames(bits, a, b, id);
    case Dupe(src, a, b) => ThreeNames(bits, src, a, b);
    case Append(src, target) => NameAt(bits, 1, src); NameAt(bits, 3, target);
    case Cut(delimiter, src, _) => NameAt(bits, if delimiter.None? then 1 else 3, src);
    case Fanout(src, a, b) => ThreeNames(bits, src, a, b);
    case Tag(src, _) => NameAt(bits, 1, src);
    case Join(src, _) => NameAt(bits, 1, src);
  }

  lemma {:induction false} ThreeNames(bits: seq<Bit>, a: string, b: string, c: string)
    requires EveryBit(x => Named(x), bits) && |bits| == 6
    requires bits[1] == Id(a) && bits[3] == Id(b) && bits[5] == Id(c)
    ensures !EmptyId(a) && !EmptyId(b) && !EmptyId(c)
  {
  }

  ghost predicate AllNamesOk(stmts: seq<Stmt>) {
    forall k :: 0 <= k < |stmts| ==> NamesOk(stmts[k])
  }

  /** The statements of a text that parses keep the rules of scope, and name their iterators. */
  lemma {:induction false} ParsedStmts(text: string, eng: Engine)
    requires ReadScript(TokensOf(text), NO_SCOPE, eng).Done?
    ensures
      var r := ReadScript(TokensOf(text), NO_SCOPE, eng);
      && ScriptInScope(r.stmts, NO_SCOPE, eng) && r.scope == AfterAll(r.stmts, NO_SCOPE) && AllNamesOk(r.stmts)
  {
    hide LexFrom, ReadScript, ScriptShapes, ScriptInScope, LinesOk, AllCounted, Named, Bits, Word, NamesOk;
    var cap := LEX_BUF_SIZE - 1;
    var lines := ReadLines(text, eng, cap);
    LexIsReady(text, 1, cap);
    RunIsNamed(text, 1, cap);
    assert Named(Fixed(EOL)) by { EolIsNamed(); }
    LinesEvery(x => Named(x), lines);
    var stmts := Stmts(lines);
    forall k | 0 <= k < |stmts|
      ensures NamesOk(stmts[k])
    {
      NamesOfBits(stmts[k]);
    }
  }

  lemma {:induction false} EolIsNamed()
    ensures Named(Fixed(EOL))
  {
  }

  // ----- The table follows the scope -----------------------------------------------------------

  /** The table knows the identifiers that the parser knows, and has consumed the same ones. */
  ghost predicate Follows(t: Table, sc: Scope)
    requires Sound(t)
  {
    && t.ids.Keys == sc.sources && sc.consumed <= sc.sources
    && forall id :: id in sc.sources ==> (t.consumed[t.ids[id]] <==> id in sc.consumed)
  }

  /** The two things that the parser lets pass and the runtime does not. */
  predicate Offends(s: Stmt, sc: Scope) {
    || (s.Cut? && s.src !in sc.sources)
    || (s.Append? && s.target in sc.consumed)
  }

  ghost predicate NoPluginErrs(env: Env) {
    && (forall q, c :: env.knowsSource(q, c) && env.knowsSink(q, c))
    && (forall n :: !env.fails(n))
  }

  /** When an identifier is refused, in terms of the scope: as one to be used if it is blank, not defined or
      no longer live, as a new one if it is blank or defined, consumed or not. */
  lemma {:induction false} FaultsOf(t: Table, sc: Scope, id: string)
    requires Sound(t) && Follows(t, sc)
    ensures OldFault(t, id) ==
      if EmptyId(id) then Some(EmptyID)
      else if Live(id, sc) then None
      else Some(if id in sc.sources then ConsumedID else UndefinedID)
    ensures NewFault(t, id) ==
      if EmptyId(id) then Some(EmptyID) else if id in sc.sources then Some(DefinedID) else None
    ensures id in sc.sources ==> id in t.ids
  {
  }

  lemma {:induction false} AddFollows(t: Table, sc: Scope, id: string, x: Iter)
    requires Sound(t) && Follows(t, sc) && id !in sc.sources
    ensures Follows(Add(t, id, x), sc.(sources := sc.sources + {id}))
  {
  }

  lemma {:induction false} MarkFollows(t: Table, sc: Scope, id: string)
    requires Sound(t) && Follows(t, sc) && id in sc.sources
    ensures Follows(Mark(t, id), sc.(consumed := sc.consumed + {id}))
  {
  }

  lemma {:induction false} MadeFollows(t: Table, sc: Scope, dry: bool, c: Call, id: string, x: Iter)
    requires Sound(t) && Follows(t, sc) && id in sc.sources
    ensures Follows(Made(t, dry, c), sc) && Follows(Replace(t, id, x), sc)
  {
  }

  /** A step whose source must be live. */
  lemma {:induction false} WrapFollows(t: Table, sc: Scope, src: string, dry: bool, c: Call)
    requires Sound(t) && Follows(t, sc) && !EmptyId(src)
    ensures
      var r := WrapStep(t, src, dry, c);
      if src !in sc.sources then r.err == Some(UndefinedID)
      else if src in sc.consumed then r.err == Some(ConsumedID)
      else r.err.None? && Follows(r.table, sc)
  {
  }

  lemma {:induction false} SplitFollows(t: Table, sc: Scope, src: string, a: string, b: string, dry: bool, c: Call)
    requires Sound(t) && Follows(t, sc) && !EmptyId(src) && !EmptyId(a) && !EmptyId(b)
    requires Live(src, sc) && a !in sc.sources && b !in sc.sources && a != b
    ensures
      var r := SplitStep(t, src, a, b, dry, c);
      r.err.None? && Follows(r.table, sc.(consumed := sc.consumed + {src}, sources := sc.sources + {a, b}))
  {
    hide Sound, Follows, OldFault, NewFault, Mark, Add, Made, EmptyId;
    FaultsOf(t, sc, src);
    FaultsOf(t, sc, a);
    FaultsOf(t, sc, b);
    var sc1 := sc.(consumed := sc.consumed + {src});
    MarkFollows(t, sc, src);
    var t1 := Mark(t, src);
    MadeFollows(t1, sc1, dry, c, src, Nil);
    var t2 := Made(t1, dry, c);
    AddFollows(t2, sc1, a, Result(t, dry, 0));
    var sc2 := sc1.(sources := sc.sources + {a});
    AddFollows(Add(t2, a, Result(t, dry, 0)), sc2, b, Result(t, dry, 1));
    assert sc.sources + {a} + {b} == sc.sources + {a, b};
  }

  lemma {:induction false} MergeFollows(t: Table, sc: Scope, a: string, b: string, id: string, dry: bool)
    requires Sound(t) && Follows(t, sc) && !EmptyId(a) && !EmptyId(b) && !EmptyId(id)
    requires Live(a, sc) && Live(b, sc) && id !in sc.sources
    ensures
      var r := MergeStep(t, a, b, id, dry);
      r.err.None? && Follows(r.table, sc.(consumed := sc.consumed + {a, b}, sources := sc.sources + {id}))
  {
    hide Sound, Follows, OldFault, NewFault, Mark, Add, Made, EmptyId, Get;
    FaultsOf(t, sc, a);
    FaultsOf(t, sc, b);
    FaultsOf(t, sc, id);
    var sc1 := sc.(consumed := sc.consumed + {a});
    MarkFollows(t, sc, a);
    var t1 := Mark(t, a);
    MarkFollows(t1, sc1, b);
    var t2, sc2 := Mark(t1, b), sc1.(consumed := sc1.consumed + {b});
    var c := MergeCall(Get(t, a), Get(t, b));
    MadeFollows(t2, sc2, dry, c, a, Nil);
    AddFollows(Made(t2, dry, c), sc2, id, Result(t, dry, 0));
    assert sc.consumed + {a} + {b} == sc.consumed + {a, b};
  }

  lemma {:induction false} AppendFollows(t: Table, sc: Scope, src: string, target: string, dry: bool)
    requires Sound(t) && Follows(t, sc) && !EmptyId(src) && !EmptyId(target)
    requires Live(src, sc) && target in sc.sources
    ensures
      var r := AppendStep(t, src, target, dry);
      if target in sc.consumed then r.err == Some(ConsumedID)
      else r.err.None? && Follows(r.table, sc.(consumed := sc.consumed + {src}))
  {
    hide Sound, Follows, OldFault, Mark, Replace, Made, EmptyId, Get;
    FaultsOf(t, sc, src);
    FaultsOf(t, sc, target);
    var sc1 := sc.(consumed := sc.consumed + {src});
    MarkFollows(t, sc, src);
    var t1, c := Mark(t, src), ConcatCall(Get(t, target), Get(t, src));
    MadeFollows(t1, sc1, false, c, target, Nil);
    MadeFollows(Made(t1, false, c), sc1, false, c, target, Result(t, false, 0));
  }

  lemma {:induction false} SourceFollows(t: Table, sc: Scope, id: string, known: bool, dry: bool, fails: bool, c: Call)
    requires Sound(t) && Follows(t, sc) && !EmptyId(id) && id !in sc.sources
    ensures
      var r := SourceStep(t, id, known, dry, fails, c);
      && (r.err.Some? ==> !IsIdErr(r.err.value) && (!known || fails))
      && (r.err.None? ==> Follows(r.table, sc.(sources := sc.sources + {id})))
  {
  }

  lemma {:induction false} SameFollows(t: Table, sc: Scope, dry: bool, c: Call)
    requires Sound(t) && Follows(t, sc)
    ensures Follows(Made(t, dry, c), sc)
  {
  }

  lemma {:induction false} SinkFollows(t: Table, sc: Scope, src: string, known: bool, dry: bool, fails: bool, c: Call)
    requires Sound(t) && Follows(t, sc) && !EmptyId(src) && Live(src, sc)
    ensures
      var r := SinkStep(t, src, known, dry, fails, c);
      && (r.err.Some? ==> !IsIdErr(r.err.value) && (!known || fails))
      && (r.err.None? ==> Follows(r.table, sc.(consumed := sc.consumed + {src})))
  {
    hide Sound, Follows, OldFault, Mark, EmptyId;
    FaultsOf(t, sc, src);
    MarkFollows(t, sc, src);
    SameFollows(Mark(t, src), sc.(consumed := sc.consumed + {src}), dry, c);
  }

  /** A statement that keeps the rules of scope, executed on a table that follows the scope: it fails
      on an identifier exactly if it is one of the two that the parser should have caught; if it does
      not fail, the table follows the scope behind it. */
  lemma {:induction false} StepFollows(s: Stmt, sc: Scope, t: Table, dry: bool, env: Env)
    requires InScope(s, sc) && NamesOk(s) && Sound(t) && Follows(t, sc)
    ensures
      var r := StepOf(t, FieldsOf(s), dry, env);
      && (r.err.Some? && IsIdErr(r.err.value) <==> Offends(s, sc))
      && (Offends(s, sc) ==> r.err == Some(if s.Cut? then UndefinedID else ConsumedID))
      && (r.err.None? ==> Follows(r.table, After(s, sc)))
      && (NoPluginErrs(env) && !Offends(s, sc) ==> r.err.None?)
  {
    hide Sound, Follows, EmptyId, Escape, Escapes, FieldSets, ArgsOf, ArgsDefined, WrapStep, SplitStep, MergeStep,
      AppendStep, SourceStep, SinkStep;
    var n := |t.calls|;
    match s
    case Blank =>
    case Source(id, q, c, args) =>
      SourceFollows(t, sc, id, env.knowsSource(q, c), dry, env.fails(n), SourceCall(q, c, ArgsOf(args)));
    case Sink(src, q, c, args) =>
      SinkFollows(t, sc, src, env.knowsSink(q, c), dry, env.fails(n), SinkCall(GetOrNil(t, src), q, c, ArgsOf(args)));
    case AsyncSink(src, id, q, c, args) =>
      SinkFollows(t, sc, src, env.knowsSink(q, c), dry, env.fails(n), SinkCall(GetOrNil(t, src), q, c, ArgsOf(args)));
      SinksDoNotMatter(StepOf(t, FieldsOf(s), dry, env).table, sc.(consumed := sc.consumed + {src}), id);
    case Merge(a, b, id) => MergeFollows(t, sc, a, b, id, dry);
    case Dupe(src, a, b) => SplitFollows(t, sc, src, a, b, dry, DupeCall(GetOrNil(t, src)));
    case Append(src, target) => AppendFollows(t, sc, src, target, dry);
    case Cut(delimiter, src, fields) =>
      var d := if delimiter.None? then " " else Escape(delimiter.value);
      WrapFollows(t, sc, src, dry, CutCall(GetOrNil(t, src), d, FieldSets(fields)));
    case Fanout(src, a, b) => SplitFollows(t, sc, src, a, b, dry, FanoutCall(GetOrNil(t, src)));
    case Tag(src, tag) => WrapFollows(t, sc, src, false, TagCall(GetOrNil(t, src), Escape(tag)));
    case Join(src, patterns) => WrapFollows(t, sc, src, dry, JoinCall(GetOrNil(t, src), Escapes(patterns)));
  }

  lemma {:induction false} SinksDoNotMatter(t: Table, sc: Scope, id: string)
    requires Sound(t)
    ensures Follows(t, sc) <==> Follows(t, sc.(sinks := sc.sinks + {id}))
  {
  }

  // ----- Whole runs ----------------------------------------------------------------------------

  /** The scope before the k-th statement. */
  function ScopeAt(stmts: seq<Stmt>, sc: Scope, k: nat): Scope
    requires k <= |stmts|
  {
    AfterAll(stmts[..k], sc)
  }

  ghost predicate NoneOffends(stmts: seq<Stmt>, sc: Scope, n: nat)
    requires n <= |stmts|
  {
    forall k :: 0 <= k < n ==> !Offends(stmts[k], ScopeAt(stmts, sc, k))
  }

  lemma {:induction false} ScopeAtTail(stmts: seq<Stmt>, sc: Scope, k: nat)
    requires 0 < k <= |stmts|
    ensures ScopeAt(stmts, sc, k) == ScopeAt(stmts[1..], After(stmts[0], sc), k - 1)
  {
    hide After;
    assert stmts[..k][1..] == stmts[1..][..k - 1];
  }

  lemma {:induction false} NoneOffendsTail(stmts: seq<Stmt>, sc: Scope, n: nat)
    requires 0 < n <= |stmts|
    ensures NoneOffends(stmts, sc, n)
      <==> !Offends(stmts[0], sc) && NoneOffends(stmts[1..], After(stmts[0], sc), n - 1)
  {
    hide After, Offends, ScopeAt;
    var rest, sc1 := stmts[1..], After(stmts[0], sc);
    assert ScopeAt(stmts, sc, 0) == sc by { NothingBefore(stmts, sc); }
    forall k | 0 < k < n
      ensures ScopeAt(stmts, sc, k) == ScopeAt(rest, sc1, k - 1) && rest[k - 1] == stmts[k]
    {
      ScopeAtTail(stmts, sc, k);
    }
    if !Offends(stmts[0], sc) && NoneOffends(rest, sc1, n - 1) {
      forall k | 0 <= k < n
        ensures !Offends(stmts[k], ScopeAt(stmts, sc, k))
      {
        if 0 < k {
          assert !Offends(rest[k - 1], ScopeAt(rest, sc1, k - 1));
        }
      }
    }
    if NoneOffends(stmts, sc, n) {
      forall k | 0 <= k < n - 1
        ensures !Offends(rest[k], ScopeAt(rest, sc1, k))
      {
        assert !Offends(stmts[k + 1], ScopeAt(stmts, sc, k + 1));
      }
    }
  }

  lemma {:induction false} NothingBefore(stmts: seq<Stmt>, sc: Scope)
    ensures ScopeAt(stmts, sc, 0) == sc
  {
  }

  /** Executing statements that keep the rules of scope, on a table that follows the scope: the run
      fails on an identifier exactly at the first statement that the parser should have caught; up to
      where it gets, the table follows the scope. */
  lemma {:induction false} RunFollows(stmts: seq<Stmt>, sc: Scope, eng: Engine, t: Table, dry: bool, env: Env)
    requires ScriptInScope(stmts, sc, eng) && AllNamesOk(stmts) && Sound(t) && Follows(t, sc)
    ensures
      var r := RunOf(t, Nodes(stmts), dry, env);
      && NoneOffends(stmts, sc, r.done)
      && (r.err.None? ==> Follows(r.table, AfterAll(stmts, sc)))
      && (r.err.Some? ==> (IsIdErr(r.err.value) <==> Offends(stmts[r.done], ScopeAt(stmts, sc, r.done))))
      && (r.err.Some? && IsIdErr(r.err.value) ==>
            r.err == Some(if stmts[r.done].Cut? then UndefinedID else ConsumedID))
      && (NoPluginErrs(env) ==> (r.err.None? <==> NoneOffends(stmts, sc, |stmts|)))
      && (NoPluginErrs(env) && r.err.Some? ==> IsIdErr(r.err.value))
    decreases |stmts|
  {
    hide Sound, Follows, InScope, LiteralsOk, After, StepOf, Offends, NoneOffends, FieldsOf,
      NamesOk, NoPluginErrs, IsIdErr, ScopeAt, Text;
    if stmts == [] {
      NoneOffendsNothing(stmts, sc);
    } else {
      var s := StepOf(t, FieldsOf(stmts[0]), dry, env);
      assert NamesOk(stmts[0]) && AllNamesOk(stmts[1..]);
      StepFollows(stmts[0], sc, t, dry, env);
      assert Nodes(stmts)[1..] == Nodes(stmts[1..]);
      NothingBefore(stmts, sc);
      NoneOffendsNothing(stmts, sc);
      NoneOffendsTail(stmts, sc, |stmts|);
      if s.err.None? {
        var r := RunOf(s.table, Nodes(stmts[1..]), dry, env);
        RunFollows(stmts[1..], After(stmts[0], sc), eng, s.table, dry, env);
        NoneOffendsTail(stmts, sc, r.done + 1);
        if r.err.Some? {
          ScopeAtTail(stmts, sc, r.done + 1);
        }
      }
    }
  }

  lemma {:induction false} NoneOffendsNothing(stmts: seq<Stmt>, sc: Scope)
    ensures NoneOffends(stmts, sc, 0)
  {
  }

  /** The same, after every single node: as far as the run gets, the table follows the scope. */
  lemma {:induction false} EveryPrefixFollows(stmts: seq<Stmt>, sc: Scope, eng: Engine, t: Table, dry: bool,
                                              env: Env, k: nat)
    requires ScriptInScope(stmts, sc, eng) && AllNamesOk(stmts) && Sound(t) && Follows(t, sc)
    requires k <= RunOf(t, Nodes(stmts), dry, env).done
    ensures
      var r := RunOf(t, Nodes(stmts[..k]), dry, env);
      r.err.None? && Follows(r.table, ScopeAt(stmts, sc, k))
    decreases k
  {
    hide Sound, Follows, InScope, LiteralsOk, After, StepOf, Offends, FieldsOf, NamesOk, IsIdErr,
      NoPluginErrs, ScopeAt, Text;
    if k == 0 {
      NothingBefore(stmts, sc);
      assert stmts[..0] == [];
    } else {
      assert NamesOk(stmts[0]) && AllNamesOk(stmts[1..]);
      StepFollows(stmts[0], sc, t, dry, env);
      assert Nodes(stmts)[1..] == Nodes(stmts[1..]);
      ScopeAtTail(stmts, sc, k);
      assert stmts[..k][1..] == stmts[1..][..k - 1];
      assert Nodes(stmts[..k])[1..] == Nodes(stmts[1..][..k - 1]);
      var s := StepOf(t, FieldsOf(stmts[0]), dry, env);
      EveryPrefixFollows(stmts[1..], After(stmts[0], sc), eng, s.table, dry, env, k - 1);
    }
  }

  /** Executing a text that parses on a fresh runtime: if plugins do not fail, it succeeds exactly if
      no cut names an unknown iterator and no append names a consumed target, and the table then knows
      and has consumed what the parser says. */
  lemma {:induction false} ParsedTextRuns(text: string, eng: Engine, dry: bool, env: Env)
    requires ReadScript(TokensOf(text), NO_SCOPE, eng).Done?
    ensures
      var p := ReadScript(TokensOf(text), NO_SCOPE, eng);
      var r := RunOf(NO_TABLE, Nodes(p.stmts), dry, env);
      && (r.err.Some? ==> (IsIdErr(r.err.value) <==> Offends(p.stmts[r.done], ScopeAt(p.stmts, NO_SCOPE, r.done))))
      && (r.err.Some? && IsIdErr(r.err.value) ==>
            r.err == Some(if p.stmts[r.done].Cut? then UndefinedID else ConsumedID))
      && (r.err.None? ==> NoneOffends(p.stmts, NO_SCOPE, |p.stmts|) && Follows(r.table, p.scope))
      && (NoPluginErrs(env) ==> (r.err.None? <==> NoneOffends(p.stmts, NO_SCOPE, |p.stmts|)))
  {
    hide *;
    var p := ReadScript(TokensOf(text), NO_SCOPE, eng);
    ParsedStmts(text, eng);
    FreshFollows();
    RunFollows(p.stmts, NO_SCOPE, eng, NO_TABLE, dry, env);
    NodesLength(p.stmts);
  }

  lemma {:induction false} FreshFollows()
    ensures Sound(NO_TABLE) && Follows(NO_TABLE, NO_SCOPE)
  {
  }

  lemma {:induction false} NodesLength(stmts: seq<Stmt>)
    ensures |Nodes(stmts)| == |stmts|
  {
  }

  /** In a run of a text that parses, no iterator is handed over twice exactly if no executed append names
      the same iterator as its source and its target: merges of one iterator with itself do not parse. */
  lemma {:induction false} ParsedTextLinear(text: string, eng: Engine, env: Env)
    requires ReadScript(TokensOf(text), NO_SCOPE, eng).Done?
    ensures
      var stmts := ReadScript(TokensOf(text), NO_SCOPE, eng).stmts;
      var r := RunOf(NO_TABLE, Nodes(stmts), false, env);
      && r.done <= |stmts|
      && (Distinct(Handed(r.table.calls))
          <==> forall k :: 0 <= k < r.done && stmts[k].Append? ==> stmts[k].src != stmts[k].target)
  {
    hide *;
    var stmts := ReadScript(TokensOf(text), NO_SCOPE, eng).stmts;
    ParsedStmts(text, eng);
    FreshIsLinear();
    var r := RunOf(NO_TABLE, Nodes(stmts), false, env);
    LinearIff(NO_TABLE, Nodes(stmts), env);
    NodesLength(stmts);
    forall k | 0 <= k < |stmts|
      ensures SelfFeeding(Nodes(stmts)[k].fields) <==> stmts[k].Append? && stmts[k].src == stmts[k].target
    {
      NodeAt(stmts, k);
      StmtInScope(stmts, NO_SCOPE, eng, k);
      OnlyAppendFeedsItself(stmts[k], AfterAll(stmts[..k], NO_SCOPE));
    }
  }

  lemma {:induction false} NodeAt(stmts: seq<Stmt>, k: nat)
    requires k < |stmts|
    ensures Nodes(stmts)[k].fields == FieldsOf(stmts[k])
  {
    hide FieldsOf, Text;
    if 0 < k {
      NodeAt(stmts[1..], k - 1);
    }
  }

  lemma {:induction false} OnlyAppendFeedsItself(s: Stmt, sc: Scope)
    requires InScope(s, sc)
    ensures SelfFeeding(FieldsOf(s)) <==> s.Append? && s.src == s.target
  {
  }

  /** Neither the statement nor one before it is refused by the runtime. */
  ghost predicate Passes(stmts: seq<Stmt>, sc: Scope, k: nat) {
    k < |stmts| && NoneOffends(stmts, sc, k + 1)
  }

  /** If plugins do not fail, that can be told from the text: no iterator is handed over twice exactly if
      none is appended to itself before the first statement that the runtime refuses, if there is one. */
  lemma {:induction false} ParsedTextLinearIff(text: string, eng: Engine, env: Env)
    requires ReadScript(TokensOf(text), NO_SCOPE, eng).Done? && NoPluginErrs(env)
    ensures
      var stmts := ReadScript(TokensOf(text), NO_SCOPE, eng).stmts;
      var r := RunOf(NO_TABLE, Nodes(stmts), false, env);
      Distinct(Handed(r.table.calls))
      <==> forall k: nat :: Passes(stmts, NO_SCOPE, k) && stmts[k].Append? ==> stmts[k].src != stmts[k].target
  {
    hide *;
    var stmts := ReadScript(TokensOf(text), NO_SCOPE, eng).stmts;
    FreshFollows();
    var r := RunOf(NO_TABLE, Nodes(stmts), false, env);
    ParsedTextLinear(text, eng, env);
    ParsedStmts(text, eng);
    RunFollows(stmts, NO_SCOPE, eng, NO_TABLE, false, env);
    NodesLength(stmts);
    forall k: nat
      ensures Passes(stmts, NO_SCOPE, k) <==> k < r.done
    {
      PassesUpTo(stmts, NO_SCOPE, k, r.done);
    }
  }

  lemma {:induction false} PassesUpTo(stmts: seq<Stmt>, sc: Scope, k: nat, n: nat)
    requires n <= |stmts| && NoneOffends(stmts, sc, n)
    requires n == |stmts| || Offends(stmts[n], ScopeAt(stmts, sc, n))
    ensures Passes(stmts, sc, k) <==> k < n
  {
    hide Offends, ScopeAt;
  }

  // ----- What a text says ----------------------------------------------------------------------

  /** The fields of every node of a text that parses say what was written in its statement: integers are
      the numbers that their digits spell, the values of quoted texts that are not misread are their usual
      reading, and a field of a cut has the number of its last setting. */
  lemma {:induction false} NodesSay(text: string, eng: Engine, k: nat)
    requires ReadScript(TokensOf(text), NO_SCOPE, eng).Done?
    requires k < |ReadScript(TokensOf(text), NO_SCOPE, eng).stmts|
    ensures
      var stmts := ReadScript(TokensOf(text), NO_SCOPE, eng).stmts;
      FieldsSay(stmts[k], Nodes(stmts)[k].fields)
  {
    hide *;
    var stmts := ReadScript(TokensOf(text), NO_SCOPE, eng).stmts;
    ParsedStmts(text, eng);
    StmtInScope(stmts, NO_SCOPE, eng, k);
    NodeAt(stmts, k);
    FieldsSayIt(stmts[k], eng);
  }

  /** Executing a text that parses on a fresh runtime: whatever the plugins do, behind every statement that
      the run executes, the identifiers that are live yield what the statements so far mean, and the sinks
      were given what they mean. If plugins do not fail and none offends, that is so behind all of them. */
  lemma {:induction false} ParsedTextMeans(text: string, eng: Engine, env: Env, w: World, k: nat)
    requires ReadScript(TokensOf(text), NO_SCOPE, eng).Done?
    requires
      var stmts := ReadScript(TokensOf(text), NO_SCOPE, eng).stmts;
      || k <= RunOf(NO_TABLE, Nodes(stmts), false, env).done
      || (NoPluginErrs(env) && k <= |stmts| && NoneOffends(stmts, NO_SCOPE, |stmts|))
    ensures
      var stmts := ReadScript(TokensOf(text), NO_SCOPE, eng).stmts;
      && k <= |stmts|
      && var r := RunOf(NO_TABLE, Nodes(stmts[..k]), false, env);
         r.err.None? && Does(r.table, MeansAll(stmts[..k], NO_FLOW, w), w)
  {
    hide *;
    var stmts := ReadScript(TokensOf(text), NO_SCOPE, eng).stmts;
    ParsedTextRuns(text, eng, false, env);
    NodesLength(stmts);
    FreshDoes(w);
    RunMeans(stmts, NO_TABLE, NO_FLOW, w, env, k);
  }

  // ----- The Async flag ------------------------------------------------------------------------

  /** In every text that parses, the sinks, asynchronous or not, are exactly the nodes for sinks whose
      failing calls end a run: the flag that would let it go on is never set. */
  lemma {:induction false} SinksCanFail(text: string, eng: Engine, k: nat)
    requires ReadScript(TokensOf(text), NO_SCOPE, eng).Done?
    requires k < |ReadScript(TokensOf(text), NO_SCOPE, eng).stmts|
    ensures
      var stmts := ReadScript(TokensOf(text), NO_SCOPE, eng).stmts;
      stmts[k].Sink? || stmts[k].AsyncSink?
      <==> Nodes(stmts)[k].fields.SinkNode? && CanFail(Nodes(stmts)[k].fields)
  {
    hide *;
    var stmts := ReadScript(TokensOf(text), NO_SCOPE, eng).stmts;
    NodeAt(stmts, k);
    SinkFields(stmts[k]);
  }

  lemma {:induction false} SinkFields(s: Stmt)
    ensures s.Sink? || s.AsyncSink? <==> FieldsOf(s).SinkNode? && CanFail(FieldsOf(s))
    ensures FieldsOf(s).SinkNode? ==> CanFail(FieldsOf(s))
  {
  }

  /** The script with every asynchronous sink made synchronous. */
  function Synchronous(stmts: seq<Stmt>): (r: seq<Stmt>)
    ensures |r| == |stmts|
  {
    if stmts == [] then []
    else
      [if stmts[0].AsyncSink? then Sink(stmts[0].src, stmts[0].qualifier, stmts[0].class_, stmts[0].args) else stmts[0]]
      + Synchronous(stmts[1..])
  }

  /** Writing async makes no difference to any run: the same calls, the same table, the same error. */
  lemma {:induction false} AsyncIsIgnored(stmts: seq<Stmt>, t: Table, dry: bool, env: Env)
    requires Sound(t)
    ensures RunOf(t, Nodes(stmts), dry, env) == RunOf(t, Nodes(Synchronous(stmts)), dry, env)
    decreases |stmts|
  {
    hide Sound, StepOf, FieldsOf, Text;
    if stmts != [] {
      var other := Synchronous(stmts);
      assert Nodes(stmts)[1..] == Nodes(stmts[1..]) && Nodes(other)[1..] == Nodes(other[1..]);
      assert other[1..] == Synchronous(stmts[1..]);
      SameStep(stmts[0], other[0], t, dry, env);
      var s := StepOf(t, FieldsOf(stmts[0]), dry, env);
      if s.err.None? {
        AsyncIsIgnored(stmts[1..], s.table, dry, env);
      }
    }
  }

  lemma {:induction false} SameStep(s: Stmt, other: Stmt, t: Table, dry: bool, env: Env)
    requires Sound(t)
    requires other == if s.AsyncSink? then Sink(s.src, s.qualifier, s.class_, s.args) else s
    ensures StepOf(t, FieldsOf(s), dry, env) == StepOf(t, FieldsOf(other), dry, env)
  {
    hide Sound, SinkStep, GetOrNil, ArgsOf;
  }
}
