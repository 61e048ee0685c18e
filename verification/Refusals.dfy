/** The other side of the grammar theorem: the error with which the parser refuses a script that breaks the
    rules of scope. */
module Refusals {
  import opened Options
  import opened Tokens
  import opened LexPrint
  import opened Syntax
  import opened ParseSpec
  import opened Grammar

  // ----- The first rule that a statement breaks ------------------------------------------------

  function LiveErr(id: string, sc: Scope): Option<ParseErr> {
    if id !in sc.sources then Some(Undefined) else if id in sc.consumed then Some(AlreadyConsumed) else None
  }

  function NewErr(id: string, known: set<string>): Option<ParseErr> {
    if id in known then Some(AlreadyDefined) else None
  }

  function KnownErr(ids: set<string>, known: set<string>): Option<ParseErr> {
    if ids <= known then None else Some(Undefined)
  }

  function Either(a: Option<ParseErr>, b: Option<ParseErr>): Option<ParseErr> { if a.Some? then a else b }

  /** The identifiers among some arguments. */
  function IdsIn(args: seq<Shape>): set<string> {
    set k | 0 <= k < |args| && args[k].typ == IDENTIFIER :: args[k].text
  }

  /** The rules of a statement from left to right, each in the scope that the identifiers before it leave. */
  function ScopeErr(s: Stmt, sc: Scope): Option<ParseErr> {
    match s
    case Blank => None
    case Source(id, _, _, args) =>
      Either(NewErr(id, sc.sources), KnownErr(IdsIn(args), sc.sources + {id} + sc.sinks))
    case Sink(src, _, _, args) => Either(LiveErr(src, sc), KnownErr(IdsIn(args), sc.sources + sc.sinks))
    case AsyncSink(src, id, _, _, args) =>
      Either(LiveErr(src, sc),
             Either(NewErr(id, sc.sources + sc.sinks), KnownErr(IdsIn(args), sc.sources + sc.sinks + {id})))
    case Merge(a, b, id) =>
      Either(LiveErr(a, sc),
             Either(LiveErr(b, sc.(consumed := sc.consumed + {a})), NewErr(id, sc.sources)))
    case Dupe(src, a, b) => SplitErr(src, a, b, sc)
    case Append(src, target) => Either(LiveErr(src, sc), KnownErr({target}, sc.sources))
    case Cut(_, src, _) => if src in sc.consumed then Some(AlreadyConsumed) else None
    case Fanout(src, a, b) => SplitErr(src, a, b, sc)
    case Tag(src, _) => LiveErr(src, sc)
    case Join(src, _) => LiveErr(src, sc)
  }

  function SplitErr(src: string, a: string, b: string, sc: Scope): Option<ParseErr> {
    Either(LiveErr(src, sc), Either(NewErr(a, sc.sources), NewErr(b, sc.sources + {a})))
  }

  lemma {:induction false} DefinedIff(args: seq<Shape>, known: set<string>)
    ensures ArgsDefined(args, known) <==> IdsIn(args) <= known
  {
    if IdsIn(args) <= known {
      forall k | 0 <= k < |args| && args[k].typ == IDENTIFIER
        ensures args[k].text in known
      {
        assert args[k].text in IdsIn(args);
      }
    }
  }

  /** None is broken exactly if the statement keeps the rules of scope. */
  lemma {:induction false} NoErrIff(s: Stmt, sc: Scope)
    ensures ScopeErr(s, sc).None? <==> InScope(s, sc)
  {
    hide IdsIn, ArgsDefined;
    match s
    case Source(id, _, _, args) => DefinedIff(args, sc.sources + {id} + sc.sinks);
    case Sink(_, _, _, args) => DefinedIff(args, sc.sources + sc.sinks);
    case AsyncSink(_, id, _, _, args) => DefinedIff(args, sc.sources + sc.sinks + {id});
    case _ =>
  }

  // ----- The parser refuses for it -------------------------------------------------------------

  lemma {:induction false} IdRefused(id: string, rest: Input, sc: Scope)
    ensures LiveErr(id, sc).Some? ==>
      && ReadSource(Ident(id, rest), sc) == No(LiveErr(id, sc).value)
      && ConsumeSource(Ident(id, rest), sc) == No(LiveErr(id, sc).value)
    ensures id in sc.sources ==> DefineSource(Ident(id, rest), sc) == No(AlreadyDefined)
    ensures id in sc.sources + sc.sinks ==> DefineSink(Ident(id, rest), sc) == No(AlreadyDefined)
  {
  }

  lemma {:induction false} ArgRefused(x: Shape, more: bool, behind: Input, sc: Scope, eng: Engine)
    requires ArgOk(x, eng)
    ensures
      var r := ReadArgs(behind, sc, eng, true);
      var xs := [x] + behind;
      if x.typ == IDENTIFIER && x.text !in sc.sources + sc.sinks then
        ReadArgs(if more then Kw(COMMA, xs) else xs, sc, eng, more) == No(Undefined)
      else
        r.No? ==> ReadArgs(if more then Kw(COMMA, xs) else xs, sc, eng, more) == No(r.err)
  {
    hide IntOk, Word;
    WantReads(x.typ, x.text, behind, sc);
    KwReads(COMMA, [x] + behind, sc);
  }

  lemma {:induction false} ArgsRefused(args: seq<Shape>, more: bool, rest: Input, sc: Scope, eng: Engine)
    requires ArgsOk(args, eng) && !ArgsDefined(args, sc.sources + sc.sinks)
    ensures ReadArgs(ArgsThen(args, more, rest), sc, eng, more) == No(Undefined)
  {
    hide ReadArgs, ArgOk, Word;
    var x := args[0];
    ArgRefused(x, more, ArgsThen(args[1..], true, rest), sc, eng);
    if !(x.typ == IDENTIFIER && x.text !in sc.sources + sc.sinks) {
      assert ArgsOk(args[1..], eng) && !ArgsDefined(args[1..], sc.sources + sc.sinks) by {
        assert forall k :: 0 < k < |args| ==> args[k] == args[1..][k - 1];
      }
      ArgsRefused(args[1..], true, rest, sc, eng);
    }
  }

  lemma {:induction false} CallRefused(q: string, c: string, args: seq<Shape>, rest: Input, sc: Scope, eng: Engine)
    requires ArgsOk(args, eng) && !ArgsDefined(args, sc.sources + sc.sinks)
    ensures ReadCall(ClassThen(q, c, ArgsThen(args, false, rest)), sc, eng) == No(Undefined)
  {
    hide Word, ArgsThen, ReadArgs, ArgsOk, ArgsDefined, Want;
    var list := ArgsThen(args, false, rest);
    WantReads(IDENTIFIER, q, Kw(DOT, Ident(c, list)), sc);
    KwReads(DOT, Ident(c, list), sc);
    WantReads(IDENTIFIER, c, list, sc);
    ArgsRefused(args, false, rest, sc, eng);
  }

  /** What reading such a statement gives. */
  ghost predicate Refuses(l: Line, rest: Input, sc: Scope, eng: Engine) {
    ScopeErr(l.stmt, sc).Some? && ReadStmt(LineThen(l, rest), sc, eng) == No(ScopeErr(l.stmt, sc).value)
  }

  lemma {:induction false} SourceRefused(l: Line, rest: Input, sc: Scope, eng: Engine)
    requires l.stmt.Source? && ScopeErr(l.stmt, sc).Some? && LiteralsOk(l.stmt, eng)
    ensures Refuses(l, rest, sc, eng)
  {
    hide Word, Want, DefineSource, ReadCall, ClassThen, ArgsThen, ArgsOk, ArgsDefined, IdsIn;
    var Source(id, q, c, args) := l.stmt;
    var eol := CommaThen(l.trailing, Kw(if l.last then EOF else EOL, rest));
    var call := ClassThen(q, c, ArgsThen(args, false, eol));
    KwReads(SOURCE, Kw(AS, Ident(id, call)), sc);
    KwReads(AS, Ident(id, call), sc);
    if id in sc.sources {
      IdRefused(id, call, sc);
    } else {
      SourceReads(id, call, sc);
      DefinedIff(args, sc.sources + {id} + sc.sinks);
      CallRefused(q, c, args, eol, sc.(sources := sc.sources + {id}), eng);
    }
  }

  lemma {:induction false} SinkRefused(l: Line, rest: Input, sc: Scope, eng: Engine)
    requires l.stmt.Sink? && ScopeErr(l.stmt, sc).Some? && LiteralsOk(l.stmt, eng)
    ensures Refuses(l, rest, sc, eng)
  {
    hide Word, Want, ConsumeSource, ReadMode, ReadCall, ClassThen, ArgsThen, ArgsOk, ArgsDefined, IdsIn;
    var Sink(src, q, c, args) := l.stmt;
    var eol := CommaThen(l.trailing, Kw(if l.last then EOF else EOL, rest));
    var call := ClassThen(q, c, ArgsThen(args, false, eol));
    KwReads(SINK, Ident(src, Kw(TO, call)), sc);
    if LiveErr(src, sc).Some? {
      IdRefused(src, Kw(TO, call), sc);
    } else {
      var sc1 := sc.(consumed := sc.consumed + {src});
      SourceReads(src, Kw(TO, call), sc);
      NoModeReads(call, sc1);
      DefinedIff(args, sc.sources + sc.sinks);
      CallRefused(q, c, args, eol, sc1, eng);
    }
  }

  lemma {:induction false} ModeRefused(id: string, rest: Input, sc: Scope)
    requires id in sc.sources + sc.sinks
    ensures ReadMode(Kw(ASYNC, Kw(AS, Ident(id, rest))), sc) == No(AlreadyDefined)
  {
    hide Word, Want, DefineSink;
    KwReads(ASYNC, Kw(AS, Ident(id, rest)), sc);
    KwReads(AS, Ident(id, rest), sc);
    IdRefused(id, rest, sc);
  }

  lemma {:induction false} AsyncSinkRefused(l: Line, rest: Input, sc: Scope, eng: Engine)
    requires l.stmt.AsyncSink? && ScopeErr(l.stmt, sc).Some? && LiteralsOk(l.stmt, eng)
    ensures Refuses(l, rest, sc, eng)
  {
    hide Word, Want, ConsumeSource, ReadMode, ReadCall, ClassThen, ArgsThen, ArgsOk, ArgsDefined, IdsIn;
    var AsyncSink(src, id, q, c, args) := l.stmt;
    var eol := CommaThen(l.trailing, Kw(if l.last then EOF else EOL, rest));
    var call := ClassThen(q, c, ArgsThen(args, false, eol));
    var mode := Kw(ASYNC, Kw(AS, Ident(id, Kw(TO, call))));
    KwReads(SINK, Ident(src, mode), sc);
    if LiveErr(src, sc).Some? {
      IdRefused(src, mode, sc);
    } else {
      var sc1 := sc.(consumed := sc.consumed + {src});
      SourceReads(src, mode, sc);
      if id in sc.sources + sc.sinks {
        ModeRefused(id, Kw(TO, call), sc1);
      } else {
        var sc2 := sc1.(sinks := sc.sinks + {id});
        ModeReads(id, call, sc1);
        assert sc2.sources + sc2.sinks == sc.sources + sc.sinks + {id};
        DefinedIff(args, sc.sources + sc.sinks + {id});
        CallRefused(q, c, args, eol, sc2, eng);
      }
    }
  }

  lemma {:induction false} PairRefused(a: string, b: string, rest: Input, sc: Scope)
    requires Either(LiveErr(a, sc), LiveErr(b, sc.(consumed := sc.consumed + {a}))).Some?
    ensures ConsumePair(Ident(a, Kw(AND, Ident(b, rest))), sc)
         == No(Either(LiveErr(a, sc), LiveErr(b, sc.(consumed := sc.consumed + {a}))).value)
  {
    hide Word, Want, ConsumeSource;
    if LiveErr(a, sc).Some? {
      IdRefused(a, Kw(AND, Ident(b, rest)), sc);
    } else {
      var sc1 := sc.(consumed := sc.consumed + {a});
      SourceReads(a, Kw(AND, Ident(b, rest)), sc);
      KwReads(AND, Ident(b, rest), sc1);
      IdRefused(b, rest, sc1);
    }
  }

  lemma {:induction false} MergeRefused(l: Line, rest: Input, sc: Scope, eng: Engine)
    requires l.stmt.Merge? && LineOk(l) && ScopeErr(l.stmt, sc).Some?
    ensures Refuses(l, rest, sc, eng)
  {
    hide Word, Want, ConsumePair, DefineSource;
    var Merge(a, b, id) := l.stmt;
    var behind := Kw(AS, Ident(id, Kw(if l.last then EOF else EOL, rest)));
    var eol := Kw(if l.last then EOF else EOL, rest);
    KwReads(MERGE, Ident(a, Kw(AND, Ident(b, behind))), sc);
    if Either(LiveErr(a, sc), LiveErr(b, sc.(consumed := sc.consumed + {a}))).Some? {
      PairRefused(a, b, behind, sc);
    } else {
      var sc1 := sc.(consumed := sc.consumed + {a, b});
      PairReads(a, b, behind, sc);
      KwReads(AS, Ident(id, eol), sc1);
      IdRefused(id, eol, sc1);
    }
  }

  lemma {:induction false} SplitRefused(src: string, a: string, b: string, rest: Input, sc: Scope)
    requires SplitErr(src, a, b, sc).Some?
    ensures ReadSplit(Ident(src, Kw(AS, Ident(a, Kw(AND, Ident(b, rest))))), sc) == No(SplitErr(src, a, b, sc).value)
  {
    hide Word, Want, ConsumeSource, DefineSource;
    var pair := Ident(a, Kw(AND, Ident(b, rest)));
    if LiveErr(src, sc).Some? {
      IdRefused(src, Kw(AS, pair), sc);
    } else {
      var sc1 := sc.(consumed := sc.consumed + {src});
      SourceReads(src, Kw(AS, pair), sc);
      KwReads(AS, pair, sc1);
      if a in sc.sources {
        IdRefused(a, Kw(AND, Ident(b, rest)), sc1);
      } else {
        var sc2 := sc1.(sources := sc.sources + {a});
        SourceReads(a, Kw(AND, Ident(b, rest)), sc1);
        KwReads(AND, Ident(b, rest), sc2);
        IdRefused(b, rest, sc2);
      }
    }
  }

  lemma {:induction false} DupeRefused(l: Line, rest: Input, sc: Scope, eng: Engine)
    requires l.stmt.Dupe? && LineOk(l) && ScopeErr(l.stmt, sc).Some?
    ensures Refuses(l, rest, sc, eng)
  {
    hide Word, Want, ReadSplit, SplitErr;
    var Dupe(src, a, b) := l.stmt;
    var eol := Kw(if l.last then EOF else EOL, rest);
    KwReads(DUPE, Ident(src, Kw(AS, Ident(a, Kw(AND, Ident(b, eol))))), sc);
    SplitRefused(src, a, b, eol, sc);
  }

  lemma {:induction false} FanoutRefused(l: Line, rest: Input, sc: Scope, eng: Engine)
    requires l.stmt.Fanout? && LineOk(l) && ScopeErr(l.stmt, sc).Some?
    ensures Refuses(l, rest, sc, eng)
  {
    hide Word, Want, ReadSplit, SplitErr;
    var Fanout(src, a, b) := l.stmt;
    var eol := Kw(if l.last then EOF else EOL, rest);
    KwReads(FANOUT, Ident(src, Kw(AS, Ident(a, Kw(AND, Ident(b, eol))))), sc);
    SplitRefused(src, a, b, eol, sc);
  }

  lemma {:induction false} AppendRefused(l: Line, rest: Input, sc: Scope, eng: Engine)
    requires l.stmt.Append? && LineOk(l) && ScopeErr(l.stmt, sc).Some?
    ensures Refuses(l, rest, sc, eng)
  {
    hide Word, Want, ConsumeSource, ReadTarget;
    var Append(src, target) := l.stmt;
    var eol := Kw(if l.last then EOF else EOL, rest);
    KwReads(APPEND, Ident(src, Kw(TO, Ident(target, eol))), sc);
    if LiveErr(src, sc).Some? {
      IdRefused(src, Kw(TO, Ident(target, eol)), sc);
    } else {
      SourceReads(src, Kw(TO, Ident(target, eol)), sc);
      TargetRefused(target, eol, sc.(consumed := sc.consumed + {src}));
    }
  }

  lemma {:induction false} TargetRefused(target: string, rest: Input, sc: Scope)
    requires target !in sc.sources
    ensures ReadTarget(Kw(TO, Ident(target, rest)), sc) == No(Undefined)
  {
  }

  lemma {:induction false} CutRefused(l: Line, rest: Input, sc: Scope, eng: Engine)
    requires l.stmt.Cut? && LineOk(l) && ScopeErr(l.stmt, sc).Some?
    ensures Refuses(l, rest, sc, eng)
  {
    hide Word, Want, DelimiterThen, ReadDelimiter, FieldsThen;
    var Cut(delimiter, src, fields) := l.stmt;
    var behind := Kw(SET, Kw(LPAR, FieldsThen(fields, Kw(RPAR, Kw(if l.last then EOF else EOL, rest)))));
    KwReads(CUT, DelimiterThen(delimiter, Ident(src, behind)), sc);
    DelimiterReads(delimiter, src, behind, sc);
    WantReads(IDENTIFIER, src, behind, sc);
  }

  lemma {:induction false} SubjectRefused(src: string, rest: Input, sc: Scope)
    requires LiveErr(src, sc).Some?
    ensures ReadSubject(Ident(src, rest), sc) == No(LiveErr(src, sc).value)
  {
    hide ReadSource;
    IdRefused(src, rest, sc);
  }

  lemma {:induction false} TagRefused(l: Line, rest: Input, sc: Scope, eng: Engine)
    requires l.stmt.Tag? && LineOk(l) && ScopeErr(l.stmt, sc).Some?
    ensures Refuses(l, rest, sc, eng)
  {
    hide Word, Want, ReadSubject;
    var Tag(src, tag) := l.stmt;
    var behind := Kw(WITH, One(STRING, tag, Kw(if l.last then EOF else EOL, rest)));
    KwReads(TAG, Ident(src, behind), sc);
    SubjectRefused(src, behind, sc);
  }

  lemma {:induction false} JoinRefused(l: Line, rest: Input, sc: Scope, eng: Engine)
    requires l.stmt.Join? && LineOk(l) && ScopeErr(l.stmt, sc).Some?
    ensures Refuses(l, rest, sc, eng)
  {
    hide Word, Want, ReadSubject, PatternsThen;
    var Join(src, patterns) := l.stmt;
    var behind := Kw(WITH, PatternsThen(patterns, Kw(if l.last then EOF else EOL, rest)));
    KwReads(JOIN, Ident(src, behind), sc);
    SubjectRefused(src, behind, sc);
  }

  /** A line of the grammar whose literals have values is refused for the first rule of scope that it
      breaks. */
  lemma {:induction false} StmtRefused(l: Line, rest: Input, sc: Scope, eng: Engine)
    requires LineOk(l) && LiteralsOk(l.stmt, eng) && !InScope(l.stmt, sc)
    ensures Refuses(l, rest, sc, eng)
  {
    hide Refuses, LineOk, LiteralsOk, InScope, ScopeErr;
    NoErrIff(l.stmt, sc);
    BlankInScope(sc);
    match l.stmt
    case Source(_, _, _, _) => SourceRefused(l, rest, sc, eng);
    case Sink(_, _, _, _) => SinkRefused(l, rest, sc, eng);
    case AsyncSink(_, _, _, _, _) => AsyncSinkRefused(l, rest, sc, eng);
    case Merge(_, _, _) => MergeRefused(l, rest, sc, eng);
    case Dupe(_, _, _) => DupeRefused(l, rest, sc, eng);
    case Append(_, _) => AppendRefused(l, rest, sc, eng);
    case Cut(_, _, _) => CutRefused(l, rest, sc, eng);
    case Fanout(_, _, _) => FanoutRefused(l, rest, sc, eng);
    case Tag(_, _) => TagRefused(l, rest, sc, eng);
    case Join(_, _) => JoinRefused(l, rest, sc, eng);
  }

  lemma {:induction false} BlankInScope(sc: Scope)
    ensures InScope(Blank, sc)
  {
  }

  /** A script is refused for the first of its lines that breaks a rule of scope, and with the error for the
      first rule that the line breaks, whatever stands behind it. */
  lemma {:induction false} ScriptRefused(lines: seq<Line>, sc: Scope, eng: Engine, k: nat)
    requires LinesOk(lines) && k < |lines| && ScriptInScope(Stmts(lines)[..k], sc, eng)
    requires LiteralsOk(lines[k].stmt, eng) && !InScope(lines[k].stmt, AfterAll(Stmts(lines)[..k], sc))
    ensures ScopeErr(lines[k].stmt, AfterAll(Stmts(lines)[..k], sc)).Some?
    ensures ReadScript(ScriptShapes(lines), sc, eng)
         == Broken(ScopeErr(lines[k].stmt, AfterAll(Stmts(lines)[..k], sc)).value)
    decreases k
  {
    hide ReadStmt, InScope, LiteralsOk, After, StmtThen, ScopeErr;
    var l := lines[0];
    var rest := if l.last then [] else ScriptShapes(lines[1..]);
    FirstIsNotLast(l, rest);
    if k == 0 {
      StmtRefused(l, rest, sc, eng);
    } else {
      var stmts := Stmts(lines);
      assert stmts[1..] == Stmts(lines[1..]) && stmts[..k][1..] == stmts[1..][..k - 1];
      StmtReads(l, rest, sc, eng);
      ScriptRefused(lines[1..], After(l.stmt, sc), eng, k - 1);
    }
  }
}
