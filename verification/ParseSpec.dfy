/** What the parser computes, as functions of the tokens ahead and of the scope. */
module ParseSpec {
  import opened Options
  import opened Tokens
  import opened Syntax

  datatype ParseErr =
    | NotAMatch | Unexpected | Undefined | AlreadyDefined | AlreadyConsumed
    | InvalidPattern | InvalidInt | InvalidFloat | LexFailure(text: string)

  /** A part that was read, with the tokens behind it and the scope after it. */
  datatype Parse<+T> = Ok(value: T, rest: seq<Shape>, scope: Scope) | No(err: ParseErr) {
    predicate IsFailure() { No? }

    function PropagateFailure<U>(): Parse<U>
      requires No?
    {
      No(err)
    }

    function Extract(): (T, seq<Shape>, Scope)
      requires Ok?
    {
      (value, rest, scope)
    }
  }

  /** The next token; a closed channel gives EOF for ever. */
  function Head(xs: seq<Shape>): Shape {
    if xs == [] then Shape(EOF, "") else xs[0]
  }

  /** The tokens behind the next one; an error token stays for ever. */
  function Tail(xs: seq<Shape>): seq<Shape> {
    if xs == [] then [] else if xs[0].typ.ERR? then [xs[0]] else xs[1..]
  }

  function Want(xs: seq<Shape>, sc: Scope, typ: TokenType): (r: Parse<string>)
    ensures r.Ok? && !typ.EOF? && !typ.ERR? ==> |r.rest| == |xs| - 1
  {
    if Head(xs).typ == typ then Ok(Head(xs).text, Tail(xs), sc) else No(Unexpected)
  }

  /** An identifier that is defined and not consumed. */
  function ReadSource(xs: seq<Shape>, sc: Scope): (r: Parse<string>)
    ensures r.Ok? ==> |r.rest| < |xs|
  {
    var (id, rest, sc) :- Want(xs, sc, IDENTIFIER);
    if id !in sc.sources then No(Undefined)
    else if id in sc.consumed then No(AlreadyConsumed)
    else Ok(id, rest, sc)
  }

  function ConsumeSource(xs: seq<Shape>, sc: Scope): (r: Parse<string>)
    ensures r.Ok? ==> |r.rest| < |xs|
  {
    var (id, rest, sc) :- ReadSource(xs, sc);
    Ok(id, rest, sc.(consumed := sc.consumed + {id}))
  }

  function DefineSource(xs: seq<Shape>, sc: Scope): (r: Parse<string>)
    ensures r.Ok? ==> |r.rest| < |xs|
  {
    var (id, rest, sc) :- Want(xs, sc, IDENTIFIER);
    if id in sc.sources then No(AlreadyDefined)
    else Ok(id, rest, sc.(sources := sc.sources + {id}))
  }

  function DefineSink(xs: seq<Shape>, sc: Scope): (r: Parse<string>)
    ensures r.Ok? ==> |r.rest| < |xs|
  {
    var (id, rest, sc) :- Want(xs, sc, IDENTIFIER);
    if id in sc.sources || id in sc.sinks then No(AlreadyDefined)
    else Ok(id, rest, sc.(sinks := sc.sinks + {id}))
  }

  function ReadClass(xs: seq<Shape>, sc: Scope): (r: Parse<(string, string)>)
    ensures r.Ok? ==> |r.rest| < |xs|
  {
    var (qualifier, xs, sc) :- Want(xs, sc, IDENTIFIER);
    var (_, xs, sc) :- Want(xs, sc, DOT);
    var (class_, xs, sc) :- Want(xs, sc, IDENTIFIER);
    Ok((qualifier, class_), xs, sc)
  }

  function ArgFault(x: Shape, sc: Scope, eng: Engine): (fault: Option<ParseErr>)
    ensures fault.Some? ==> fault.value != NotAMatch
  {
    if x.typ.NUMBER? && !eng.floatOk(x.text) then Some(InvalidFloat)
    else if x.typ.INT? && !IntOk(x.text) then Some(InvalidInt)
    else if x.typ.IDENTIFIER? && x.text !in sc.sources && x.text !in sc.sinks then Some(Undefined)
    else None
  }

  /** Arguments up to the first token that cannot go on the list; more says that one has been read. */
  function ReadArgs(xs: seq<Shape>, sc: Scope, eng: Engine, more: bool): (r: Parse<seq<Shape>>)
    ensures r.Ok? ==> |r.rest| <= |xs| && r.scope == sc
    decreases |xs|
  {
    if more && Head(xs).typ != COMMA then Ok([], xs, sc)
    else
      var ys := if more then Tail(xs) else xs;
      var x := Head(ys);
      if !IsArg(x.typ) then Ok([], ys, sc)
      else
        var fault := ArgFault(x, sc, eng);
        if fault.Some? then No(fault.value)
        else
          var (args, rest, sc) :- ReadArgs(Tail(ys), sc, eng, true);
          Ok([x] + args, rest, sc)
  }

  /** One field setting. */
  function ReadField(xs: seq<Shape>, sc: Scope): (r: Parse<(string, string)>)
    ensures r.Ok? ==> |r.rest| < |xs| && r.scope == sc
    ensures r.No? ==> r.err != NotAMatch
  {
    var (id, xs, sc) :- Want(xs, sc, IDENTIFIER);
    var (_, xs, sc) :- Want(xs, sc, EQ);
    var (num, xs, sc) :- Want(xs, sc, INT);
    if !IntOk(num) then No(InvalidInt) else Ok((id, num), xs, sc)
  }

  /** Field settings up to and including the closing parenthesis. */
  function ReadFields(xs: seq<Shape>, sc: Scope): (r: Parse<seq<(string, string)>>)
    ensures r.Ok? ==> |r.rest| < |xs| && r.scope == sc
    decreases |xs|
  {
    var (field, xs, sc) :- ReadField(xs, sc);
    if Head(xs).typ == RPAR then Ok([field], Tail(xs), sc)
    else
      var (_, xs, sc) :- Want(xs, sc, COMMA);
      var (fields, xs, sc) :- ReadFields(xs, sc);
      Ok([field] + fields, xs, sc)
  }

  function ReadPatterns(xs: seq<Shape>, sc: Scope, eng: Engine): (r: Parse<seq<string>>)
    ensures r.Ok? ==> |r.rest| < |xs| && r.scope == sc
    decreases |xs|
  {
    var (pattern, xs, sc) :- Want(xs, sc, STRING);
    if !eng.patternOk(Escape(pattern)) then No(InvalidPattern)
    else if Head(xs).typ != COMMA then Ok([pattern], xs, sc)
    else
      var (patterns, xs, sc) :- ReadPatterns(Tail(xs), sc, eng);
      Ok([pattern] + patterns, xs, sc)
  }

  function ReadEol(xs: seq<Shape>, sc: Scope): (r: Parse<string>)
    ensures r.Ok? ==> |r.rest| <= |xs|
  {
    if Head(xs).typ == EOF || Head(xs).typ == EOL then Ok(Head(xs).text, Tail(xs), sc) else No(Unexpected)
  }

  // ----- Statements --------------------------------------------------------------------------

  /** The part that sources and sinks share: a class, its arguments and the end of the line. */
  function ReadCall(xs: seq<Shape>, sc: Scope, eng: Engine): (r: Parse<(string, string, seq<Shape>)>)
    ensures r.Ok? ==> |r.rest| < |xs|
  {
    var (class_, xs, sc) :- ReadClass(xs, sc);
    var (args, xs, sc) :- ReadArgs(xs, sc, eng, false);
    var (_, xs, sc) :- ReadEol(xs, sc);
    Ok((class_.0, class_.1, args), xs, sc)
  }

  function ReadSourceStmt(xs: seq<Shape>, sc: Scope, eng: Engine): (r: Parse<Stmt>)
    ensures r.Ok? ==> |r.rest| < |xs|
  {
    var (_, xs, sc) :- Want(xs, sc, SOURCE);
    var (_, xs, sc) :- Want(xs, sc, AS);
    var (id, xs, sc) :- DefineSource(xs, sc);
    var (call, xs, sc) :- ReadCall(xs, sc, eng);
    Ok(Source(id, call.0, call.1, call.2), xs, sc)
  }

  /** What follows the word async. */
  function ReadAsync(xs: seq<Shape>, sc: Scope): (r: Parse<string>)
    ensures r.Ok? ==> |r.rest| < |xs|
  {
    var (_, xs, sc) :- Want(xs, sc, AS);
    var (id, xs, sc) :- DefineSink(xs, sc);
    var (_, xs, sc) :- Want(xs, sc, TO);
    Ok(id, xs, sc)
  }

  /** What stands between the source of a sink and its class: the sink's name if it is asynchronous. */
  function ReadMode(xs: seq<Shape>, sc: Scope): (r: Parse<Option<string>>)
    ensures r.Ok? ==> |r.rest| < |xs|
  {
    if Head(xs).typ == ASYNC then
      var (id, xs, sc) :- ReadAsync(Tail(xs), sc);
      Ok(Some(id), xs, sc)
    else
      var (_, xs, sc) :- Want(xs, sc, TO);
      Ok(None, xs, sc)
  }

  function ReadSinkStmt(xs: seq<Shape>, sc: Scope, eng: Engine): (r: Parse<Stmt>)
    ensures r.Ok? ==> |r.rest| < |xs|
  {
    var (_, xs, sc) :- Want(xs, sc, SINK);
    var (src, xs, sc) :- ConsumeSource(xs, sc);
    var (mode, xs, sc) :- ReadMode(xs, sc);
    var (call, xs, sc) :- ReadCall(xs, sc, eng);
    Ok(if mode.Some? then AsyncSink(src, mode.value, call.0, call.1, call.2)
       else Sink(src, call.0, call.1, call.2), xs, sc)
  }

  function ConsumePair(xs: seq<Shape>, sc: Scope): (r: Parse<(string, string)>)
    ensures r.Ok? ==> |r.rest| < |xs|
  {
    var (a, xs, sc) :- ConsumeSource(xs, sc);
    var (_, xs, sc) :- Want(xs, sc, AND);
    var (b, xs, sc) :- ConsumeSource(xs, sc);
    Ok((a, b), xs, sc)
  }

  function DefinePair(xs: seq<Shape>, sc: Scope): (r: Parse<(string, string)>)
    ensures r.Ok? ==> |r.rest| < |xs|
  {
    var (a, xs, sc) :- DefineSource(xs, sc);
    var (_, xs, sc) :- Want(xs, sc, AND);
    var (b, xs, sc) :- DefineSource(xs, sc);
    Ok((a, b), xs, sc)
  }

  /** What follows the word merge. */
  function ReadUnion(xs: seq<Shape>, sc: Scope): (r: Parse<(string, string, string)>)
    ensures r.Ok? ==> |r.rest| < |xs|
  {
    var (srcs, xs, sc) :- ConsumePair(xs, sc);
    var (_, xs, sc) :- Want(xs, sc, AS);
    var (id, xs, sc) :- DefineSource(xs, sc);
    var (_, xs, sc) :- ReadEol(xs, sc);
    Ok((srcs.0, srcs.1, id), xs, sc)
  }

  function ReadMergeStmt(xs: seq<Shape>, sc: Scope): (r: Parse<Stmt>)
    ensures r.Ok? ==> |r.rest| < |xs|
  {
    var (_, xs, sc) :- Want(xs, sc, MERGE);
    var (ids, xs, sc) :- ReadUnion(xs, sc);
    Ok(Merge(ids.0, ids.1, ids.2), xs, sc)
  }

  /** The common part of dupe and fanout. */
  function ReadSplit(xs: seq<Shape>, sc: Scope): (r: Parse<(string, string, string)>)
    ensures r.Ok? ==> |r.rest| < |xs|
  {
    var (src, xs, sc) :- ConsumeSource(xs, sc);
    var (_, xs, sc) :- Want(xs, sc, AS);
    var (targets, xs, sc) :- DefinePair(xs, sc);
    var (_, xs, sc) :- ReadEol(xs, sc);
    Ok((src, targets.0, targets.1), xs, sc)
  }

  function ReadDupeStmt(xs: seq<Shape>, sc: Scope): (r: Parse<Stmt>)
    ensures r.Ok? ==> |r.rest| < |xs|
  {
    var (_, xs, sc) :- Want(xs, sc, DUPE);
    var (ids, xs, sc) :- ReadSplit(xs, sc);
    Ok(Dupe(ids.0, ids.1, ids.2), xs, sc)
  }

  function ReadFanoutStmt(xs: seq<Shape>, sc: Scope): (r: Parse<Stmt>)
    ensures r.Ok? ==> |r.rest| < |xs|
  {
    var (_, xs, sc) :- Want(xs, sc, FANOUT);
    var (ids, xs, sc) :- ReadSplit(xs, sc);
    Ok(Fanout(ids.0, ids.1, ids.2), xs, sc)
  }

  /** The iterator that is appended to: it must be defined, but may be consumed. */
  function ReadTarget(xs: seq<Shape>, sc: Scope): (r: Parse<string>)
    ensures r.Ok? ==> |r.rest| < |xs|
  {
    var (_, xs, sc) :- Want(xs, sc, TO);
    var (target, xs, sc) :- Want(xs, sc, IDENTIFIER);
    if target !in sc.sources then No(Undefined) else Ok(target, xs, sc)
  }

  function ReadAppendStmt(xs: seq<Shape>, sc: Scope): (r: Parse<Stmt>)
    ensures r.Ok? ==> |r.rest| < |xs|
  {
    var (_, xs, sc) :- Want(xs, sc, APPEND);
    var (src, xs, sc) :- ConsumeSource(xs, sc);
    var (target, xs, sc) :- ReadTarget(xs, sc);
    var (_, xs, sc) :- ReadEol(xs, sc);
    Ok(Append(src, target), xs, sc)
  }

  function ReadDelimiter(xs: seq<Shape>, sc: Scope): (r: Parse<Option<string>>)
    ensures r.Ok? ==> |r.rest| <= |xs|
  {
    if Head(xs).typ == WITH then
      var (delimiter, xs, sc) :- Want(Tail(xs), sc, STRING);
      Ok(Some(delimiter), xs, sc)
    else Ok(None, xs, sc)
  }

  function ReadFieldSet(xs: seq<Shape>, sc: Scope): (r: Parse<seq<(string, string)>>)
    ensures r.Ok? ==> |r.rest| < |xs|
  {
    var (_, xs, sc) :- Want(xs, sc, SET);
    var (_, xs, sc) :- Want(xs, sc, LPAR);
    var (fields, xs, sc) :- ReadFields(xs, sc);
    var (_, xs, sc) :- ReadEol(xs, sc);
    Ok(fields, xs, sc)
  }

  /** The delimiter, if any, and the source. */
  function ReadCutHead(xs: seq<Shape>, sc: Scope): (r: Parse<(Option<string>, string)>)
    ensures r.Ok? ==> |r.rest| < |xs|
  {
    var (delimiter, xs, sc) :- ReadDelimiter(xs, sc);
    var (src, xs, sc) :- Want(xs, sc, IDENTIFIER);
    if src in sc.consumed then No(AlreadyConsumed) else Ok((delimiter, src), xs, sc)
  }

  function ReadCutStmt(xs: seq<Shape>, sc: Scope): (r: Parse<Stmt>)
    ensures r.Ok? ==> |r.rest| < |xs|
  {
    var (_, xs, sc) :- Want(xs, sc, CUT);
    var (head, xs, sc) :- ReadCutHead(xs, sc);
    var (fields, xs, sc) :- ReadFieldSet(xs, sc);
    Ok(Cut(head.0, head.1, fields), xs, sc)
  }

  /** What tag and join start with: a source and the word in front of their strings. */
  function ReadSubject(xs: seq<Shape>, sc: Scope): (r: Parse<string>)
    ensures r.Ok? ==> |r.rest| < |xs|
  {
    var (src, xs, sc) :- ReadSource(xs, sc);
    var (_, xs, sc) :- Want(xs, sc, WITH);
    Ok(src, xs, sc)
  }

  function ReadTagStmt(xs: seq<Shape>, sc: Scope): (r: Parse<Stmt>)
    ensures r.Ok? ==> |r.rest| < |xs|
  {
    var (_, xs, sc) :- Want(xs, sc, TAG);
    var (src, xs, sc) :- ReadSubject(xs, sc);
    var (tag, xs, sc) :- Want(xs, sc, STRING);
    var (_, xs, sc) :- ReadEol(xs, sc);
    Ok(Tag(src, tag), xs, sc)
  }

  function ReadJoinStmt(xs: seq<Shape>, sc: Scope, eng: Engine): (r: Parse<Stmt>)
    ensures r.Ok? ==> |r.rest| < |xs|
  {
    var (_, xs, sc) :- Want(xs, sc, JOIN);
    var (src, xs, sc) :- ReadSubject(xs, sc);
    var (patterns, xs, sc) :- ReadPatterns(xs, sc, eng);
    var (_, xs, sc) :- ReadEol(xs, sc);
    Ok(Join(src, patterns), xs, sc)
  }

  /** One statement, chosen by its first token. */
  function ReadStmt(xs: seq<Shape>, sc: Scope, eng: Engine): (r: Parse<Stmt>)
    ensures r.Ok? ==> |r.rest| < |xs|
  {
    match Head(xs).typ
    case EOL => Ok(Blank, Tail(xs), sc)
    case SOURCE => ReadSourceStmt(xs, sc, eng)
    case SINK => ReadSinkStmt(xs, sc, eng)
    case MERGE => ReadMergeStmt(xs, sc)
    case DUPE => ReadDupeStmt(xs, sc)
    case APPEND => ReadAppendStmt(xs, sc)
    case CUT => ReadCutStmt(xs, sc)
    case FANOUT => ReadFanoutStmt(xs, sc)
    case TAG => ReadTagStmt(xs, sc)
    case JOIN => ReadJoinStmt(xs, sc, eng)
    case _ => No(Unexpected)
  }

  datatype Script = Done(stmts: seq<Stmt>, scope: Scope) | Broken(err: ParseErr)

  /** A whole script. */
  function ReadScript(xs: seq<Shape>, sc: Scope, eng: Engine): Script
    decreases |xs|
  {
    if Head(xs).typ == EOF then Done([], sc)
    else if Head(xs).typ == ERR then Broken(LexFailure(Head(xs).text))
    else
      match ReadStmt(xs, sc, eng)
      case No(err) => Broken(err)
      case Ok(s, rest, sc1) =>
        match ReadScript(rest, sc1, eng)
        case Broken(err) => Broken(err)
        case Done(stmts, sc2) => Done([s] + stmts, sc2)
  }
}
