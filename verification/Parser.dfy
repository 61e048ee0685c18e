/** The parser: recursive descent over the token stream, with the scope kept in the parser's sets. */
module Parser {
  import opened Options
  import opened Tokens
  import opened LexPrint
  import opened Syntax
  import opened ParseSpec
  import opened Grammar
  import opened Streams

  datatype Outcome<+T> = Success(value: T) | Failure(err: ParseErr) {
    predicate IsFailure() { Failure? }

    function PropagateFailure<U>(): Outcome<U>
      requires Failure?
    {
      Failure(err)
    }

    function Extract(): T
      requires Success?
    {
      value
    }
  }

  /** An outcome, with the tokens ahead and the scope after it, is what the specification says;
      on a failure the parser is given up, and neither matters. */
  ghost predicate Agrees<T>(o: Outcome<T>, r: Parse<T>, ahead: Input, sc: Scope) {
    if r.Ok? then o == Success(r.value) && ahead == r.rest && sc == r.scope else o == Failure(r.err)
  }

  /** Three slots of the push-back buffer are enough for every parse. */
  const SLOTS := 3

  /** The stream carries what a lexer posts. */
  ghost predicate Fit(str: TokenStream)
    reads str, str.buf
    ensures Fit(str) ==> str.Valid() && str.most <= SLOTS
  {
    str.Valid() && str.most <= SLOTS && Ready(str.Ahead())
  }

  ghost predicate Usable(str: TokenStream, slots: nat)
    reads str, str.buf
  {
    str.Valid() && str.idx <= slots && str.most <= SLOTS
  }

  // ----- The stream, in terms of the tokens ahead ----------------------------------------------

  lemma {:induction false} ShapesOfTail(ts: seq<Token>)
    requires ts != []
    ensures Shapes(ts) == [ShapeOf(ts[0])] + Shapes(ts[1..])
    ensures Shapes([ts[0]]) == [ShapeOf(ts[0])]
  {
  }

  method Take(str: TokenStream) returns (t: Token)
    requires Fit(str)
    modifies str
    ensures str.Valid() && str.most == old(str.most) && str.err.Some? == t.typ.ERR?
    ensures ShapeOf(t) == Head(old(str.Ahead())) && str.Ahead() == Tail(old(str.Ahead()))
    ensures !t.typ.EOF? && !t.typ.ERR? ==> Fit(str) && (IsLiteral(t.typ) || t.text == Word(t.typ))
    ensures !t.typ.ERR? ==> old(str.Content()) == [t] + str.Content()
    ensures str.idx <= old(str.idx)
    ensures !t.typ.ERR? && 0 < old(str.idx) ==> str.idx < old(str.idx)
  {
    hide Ready, Word, TokenStream.Valid, TokenStream.Content;
    ShapesOfTail(str.Content());
    t := str.Next();
    if !t.typ.EOF? && !t.typ.ERR? {
      TailReady(old(str.Ahead()));
    }
  }

  /** Gives back what was just read. */
  method Reject(str: TokenStream, t: Token, ghost xs: Input)
    requires str.Valid() && str.most <= SLOTS && str.idx < SLOTS && str.err.Some? == t.typ.ERR?
    requires Ready(xs) && ShapeOf(t) == Head(xs) && str.Ahead() == Tail(xs)
    modifies str, str.buf
    ensures Fit(str) && str.Ahead() == xs && str.idx <= old(str.idx) + 1
  {
    hide Spelled;
    ghost var rest := str.Content();
    str.PushBack([t]);
    assert Reversed([t]) == [t];
    assert ([t] + rest)[1..] == rest;
    ErrorIsLast(xs);
  }

  lemma {:induction false} EofIsLast(xs: Input)
    requires Ready(xs) && Head(xs).typ.EOF?
    ensures Tail(xs) == []
  {
  }

  lemma {:induction false} ErrorIsLast(xs: Input)
    requires Ready(xs)
    ensures Head(xs).typ.ERR? || Head(xs).typ.EOF? ==> xs == [Head(xs)]
    ensures !Head(xs).typ.ERR? ==> xs == [Head(xs)] + Tail(xs)
  {
  }

  method Look(str: TokenStream) returns (t: Token)
    requires Fit(str) && str.idx < SLOTS
    modifies str, str.buf
    ensures Fit(str) && ShapeOf(t) == Head(old(str.Ahead())) && str.Ahead() == old(str.Ahead())
    ensures str.idx <= old(str.idx) + 1
    ensures !t.typ.ERR? ==> 1 <= str.idx && (str.idx == 1 || str.idx == old(str.idx))
  {
    hide Spelled;
    ShapesOfTail(str.Content());
    ErrorIsLast(str.Ahead());
    t := str.Peek();
  }

  // ----- The text of a node --------------------------------------------------------------------

  /** The text that a node collects, and the tokens it stands for. */
  class Ast {
    var text: string
    ghost var bits: seq<Bit>

    ghost predicate Valid()
      reads this
    {
      text == Print(bits)
    }

    constructor (t: Token)
      ensures Valid() && bits == [Bit(false, ShapeOf(t))]
    {
      text, bits := t.text, [Bit(false, ShapeOf(t))];
      PrintOne(Bit(false, ShapeOf(t)));
    }

    method Append(t: Token)
      requires Valid()
      modifies this
      ensures Valid() && bits == old(bits) + [Bit(false, ShapeOf(t))]
    {
      PrintConcat(bits, [Bit(false, ShapeOf(t))]);
      PrintOne(Bit(false, ShapeOf(t)));
      text, bits := text + t.text, bits + [Bit(false, ShapeOf(t))];
    }

    method AppendSpace(t: Token)
      requires Valid()
      modifies this
      ensures Valid() && bits == old(bits) + [Bit(true, ShapeOf(t))]
    {
      PrintConcat(bits, [Bit(true, ShapeOf(t))]);
      PrintOne(Bit(true, ShapeOf(t)));
      text, bits := text + " " + t.text, bits + [Bit(true, ShapeOf(t))];
      assert old(text) + " " + t.text == old(text) + (" " + t.text);
    }

    method AppendText(s: string, ghost more: seq<Bit>)
      requires Valid() && s == Print(more)
      modifies this
      ensures Valid() && bits == old(bits) + more
    {
      PrintConcat(bits, more);
      text, bits := text + s, bits + more;
    }

    method AppendTextSpace(s: string, ghost more: seq<Bit>)
      requires Valid() && " " + s == Print(more)
      modifies this
      ensures Valid() && bits == old(bits) + more
    {
      PrintConcat(bits, more);
      text, bits := text + " " + s, bits + more;
      assert old(text) + " " + s == old(text) + (" " + s);
    }
  }

  // ----- The parser ----------------------------------------------------------------------------

  class Parser {
    var sources: set<string>
    var consumed: set<string>
    var sinks: set<string>

    ghost function Sc(): Scope
      reads this
    {
      Scope(sources, consumed, sinks)
    }

    constructor ()
      ensures Sc() == NO_SCOPE
    {
      sources, consumed, sinks := {}, {}, {};
    }

    /** Reads a token of the given type. */
    method Want(str: TokenStream, typ: TokenType, a: Ast, gap: bool) returns (o: Outcome<string>)
      requires Fit(str) && a.Valid() && !typ.EOF? && !typ.ERR?
      modifies str, a
      ensures str.Valid() && str.idx <= old(str.idx) && str.most <= SLOTS
      ensures Agrees(o, ParseSpec.Want(old(str.Ahead()), Sc(), typ), str.Ahead(), Sc())
      ensures o.Success? ==>
        && Fit(str) && a.Valid() && a.bits == old(a.bits) + [Bit(gap, Shape(typ, o.value))]
        && (IsLiteral(typ) || o.value == Word(typ)) && (0 < old(str.idx) ==> str.idx < old(str.idx))
    {
      hide Ready, Word, TokenStream.Valid, Ast.Valid;
      var t := Take(str);
      if t.typ != typ {
        return Failure(Unexpected);
      }
      if gap {
        a.AppendSpace(t);
      } else {
        a.Append(t);
      }
      return Success(t.text);
    }

    /** An identifier that is defined and not consumed. */
    method LiveSource(str: TokenStream, a: Ast) returns (o: Outcome<string>)
      requires Fit(str) && a.Valid()
      modifies str, a
      ensures Usable(str, old(str.idx))
      ensures Agrees(o, ReadSource(old(str.Ahead()), Sc()), str.Ahead(), Sc())
      ensures o.Success? ==> Fit(str) && a.Valid() && a.bits == old(a.bits) + [Id(o.value)]
    {
      hide Fit, Word, TokenStream.Valid, Ast.Valid;
      var id :- Want(str, IDENTIFIER, a, true);
      if id !in sources {
        return Failure(Undefined);
      }
      if id in consumed {
        return Failure(AlreadyConsumed);
      }
      return Success(id);
    }

    method ConsumeSource(str: TokenStream, a: Ast) returns (o: Outcome<string>)
      requires Fit(str) && a.Valid()
      modifies this, str, a
      ensures Usable(str, old(str.idx))
      ensures Agrees(o, ParseSpec.ConsumeSource(old(str.Ahead()), old(Sc())), str.Ahead(), Sc())
      ensures o.Success? ==> Fit(str) && a.Valid() && a.bits == old(a.bits) + [Id(o.value)]
    {
      hide Fit, Word, TokenStream.Valid, Ast.Valid, ReadSource;
      var id :- LiveSource(str, a);
      consumed := consumed + {id};
      return Success(id);
    }

    method DefineSource(str: TokenStream, a: Ast) returns (o: Outcome<string>)
      requires Fit(str) && a.Valid()
      modifies this, str, a
      ensures Usable(str, old(str.idx))
      ensures Agrees(o, ParseSpec.DefineSource(old(str.Ahead()), old(Sc())), str.Ahead(), Sc())
      ensures o.Success? ==> Fit(str) && a.Valid() && a.bits == old(a.bits) + [Id(o.value)]
    {
      hide Fit, Word, TokenStream.Valid, Ast.Valid;
      var id :- Want(str, IDENTIFIER, a, true);
      if id in sources {
        return Failure(AlreadyDefined);
      }
      sources := sources + {id};
      return Success(id);
    }

    method DefineSink(str: TokenStream, a: Ast) returns (o: Outcome<string>)
      requires Fit(str) && a.Valid()
      modifies this, str, a
      ensures Usable(str, old(str.idx))
      ensures Agrees(o, ParseSpec.DefineSink(old(str.Ahead()), old(Sc())), str.Ahead(), Sc())
      ensures o.Success? ==> Fit(str) && a.Valid() && a.bits == old(a.bits) + [Id(o.value)]
    {
      hide Fit, Word, TokenStream.Valid, Ast.Valid;
      var id :- Want(str, IDENTIFIER, a, true);
      if id in sources || id in sinks {
        return Failure(AlreadyDefined);
      }
      sinks := sinks + {id};
      return Success(id);
    }

    /** A class; when it cannot be read, its tokens are given back in order. */
    method ParseClass(str: TokenStream) returns (o: Outcome<(string, string)>, text: string)
      requires Fit(str) && str.idx == 0
      modifies str, str.buf
      ensures Usable(str, SLOTS)
      ensures Agrees(o, ReadClass(old(str.Ahead()), Sc()), str.Ahead(), Sc())
      ensures o.Success? ==> Fit(str) && str.idx == 0 && Print(ClassBits(o.value.0, o.value.1)) == " " + text
      ensures o.Failure? && str.err.None? ==> str.Content() == old(str.Content())
    {
      hide Fit, Word, TokenStream.Valid, Spelled, TokenStream.Content, TokenStream.Ahead,
        ReadClass, Head, Tail, ClassBits, Print;
      ghost var ts, xs := str.Content(), str.Ahead();
      ClassSteps(xs, Sc());
      text := "";
      var qual := Take(str);
      if qual.typ != IDENTIFIER {
        ReversedOne(qual);
        GiveBack(str, [qual], ts);
        return Failure(Unexpected), text;
      }
      text := qual.text;
      var dot := Take(str);
      if dot.typ != DOT {
        ReversedTwo(dot, qual, str.Content());
        GiveBack(str, [dot, qual], ts);
        return Failure(Unexpected), text;
      }
      text := text + dot.text;
      var id := Take(str);
      if id.typ != IDENTIFIER {
        ReversedThree(id, dot, qual, str.Content());
        GiveBack(str, [id, dot, qual], ts);
        return Failure(Unexpected), text;
      }
      text := text + id.text;
      ClassText(qual.text, id.text);
      return Success((qual.text, id.text)), text;
    }

    /** One argument; a token that cannot be one is given back. */
    method ParseArg(str: TokenStream, eng: Engine) returns (o: Outcome<Arg>)
      requires Fit(str) && str.idx == 0
      modifies str, str.buf
      ensures Usable(str, SLOTS)
      ensures
        var xs := old(str.Ahead());
        var x := Head(xs);
        if !IsArg(x.typ) then o == Failure(NotAMatch) && Fit(str) && str.Ahead() == xs && str.idx <= 1
        else if ArgFault(x, Sc(), eng).Some? then o == Failure(ArgFault(x, Sc(), eng).value)
        else o == Success(ArgOf(x)) && Fit(str) && str.Ahead() == Tail(xs) && str.idx == 0
    {
      hide Fit, Word, TokenStream.Valid, TokenStream.Content, TokenStream.Ahead, Spelled,
        Head, Tail, Escape, IntOk, IntValue;
      ghost var xs := str.Ahead();
      FitIsReady(str);
      var t := Take(str);
      match t.typ
      case STRING => return Success(StringArg(t.text, Escape(t.text)));
      case NUMBER =>
        if !eng.floatOk(t.text) {
          return Failure(InvalidFloat);
        }
        return Success(NumberArg(t.text));
      case INT =>
        if !IntOk(t.text) {
          return Failure(InvalidInt);
        }
        return Success(IntArg(t.text, IntValue(t.text)));
      case IDENTIFIER =>
        if t.text !in sources && t.text !in sinks {
          return Failure(Undefined);
        }
        return Success(IdentifierArg(t.text));
      case _ =>
        Reject(str, t, xs);
        return Failure(NotAMatch);
    }

    /** The arguments of a class. */
    method ParseArgs(str: TokenStream, eng: Engine) returns (o: Outcome<seq<Arg>>)
      requires Fit(str) && str.idx == 0
      modifies str, str.buf
      ensures Usable(str, SLOTS)
      ensures
        var r := ReadArgs(old(str.Ahead()), Sc(), eng, false);
        if r.No? then o == Failure(r.err)
        else o == Success(ArgsOf(r.value)) && Fit(str) && str.Ahead() == r.rest && str.idx <= 1
    {
      hide Fit, Word, TokenStream.Valid, TokenStream.Content, TokenStream.Ahead, Spelled,
        Head, Tail, IsArg, ArgOf, ReadArgs, ArgFault, Prefixed;
      ghost var r := ReadArgs(str.Ahead(), Sc(), eng, false);
      ghost var done: Input := [];
      var args := [];
      PrefixedLaws(done, Head(str.Ahead()), r);
      while true
        invariant Fit(str) && str.idx == 0 && args == ArgsOf(done)
        invariant r == Prefixed(done, ReadArgs(str.Ahead(), Sc(), eng, done != []))
        decreases |str.Ahead()|
      {
        ghost var xs := str.Ahead();
        ArgsStep(xs, Sc(), eng, done != []);
        PrefixedLaws(done, Head(xs), ReadArgs(xs, Sc(), eng, done != []));
        FitIsReady(str);
        if args != [] {
          var t := Take(str);
          if t.typ != COMMA {
            Reject(str, t, xs);
            return Success(args);
          }
        }
        ghost var ys := str.Ahead();
        var a := ParseArg(str, eng);
        if a.Failure? {
          if a.err == NotAMatch {
            return Success(args);
          }
          return Failure(a.err);
        }
        ArgsOfAppend(done, Head(ys));
        PrefixedLaws(done, Head(ys), ReadArgs(Tail(ys), Sc(), eng, true));
        args := args + [a.value];
        done := done + [Head(ys)];
      }
    }

    /** The end of a line or of the text; any other token is given back. */
    method ParseEol(str: TokenStream) returns (o: Outcome<Node>)
      requires Fit(str) && str.idx <= 1
      modifies str, str.buf
      ensures Usable(str, SLOTS)
      ensures
        var xs := old(str.Ahead());
        var x := Head(xs);
        if x.typ.EOF? || x.typ.EOL? then
          && o == Success(Node(x.text, EolNode)) && str.Ahead() == Tail(xs) && str.idx == 0
          && (x.typ.EOL? ==> Fit(str)) && (x.typ.EOF? ==> str.Ahead() == [])
        else
          o == Failure(NotAMatch) && Fit(str) && str.Ahead() == xs && str.idx <= 2
    {
      hide Fit, Word, TokenStream.Valid, TokenStream.Content, TokenStream.Ahead, Spelled, Head, Tail;
      ghost var xs := str.Ahead();
      FitIsReady(str);
      if Head(xs).typ.EOF? {
        EofIsLast(xs);
      }
      var t := Take(str);
      if t.typ == EOF || t.typ == EOL {
        return Success(Node(t.text, EolNode));
      }
      Reject(str, t, xs);
      return Failure(NotAMatch);
    }

    /** Nothing, or what a lexer posts. */
    ghost predicate AtLineEnd(str: TokenStream)
      reads str, str.buf
    {
      str.Valid() && str.idx == 0 && str.most <= SLOTS && (str.Ahead() == [] || Fit(str))
    }

    method ParseRequiredEol(str: TokenStream) returns (o: Outcome<Node>)
      requires Fit(str) && str.idx <= 1
      modifies str, str.buf
      ensures Usable(str, SLOTS)
      ensures
        var r := ReadEol(old(str.Ahead()), Sc());
        if r.No? then o == Failure(r.err)
        else o.Success? && str.Ahead() == r.rest && Sc() == r.scope && AtLineEnd(str)
    {
      hide Fit, TokenStream.Valid, TokenStream.Content, TokenStream.Ahead, Head, Tail;
      o := ParseEol(str);
      if o == Failure(NotAMatch) {
        var _ := Look(str);
        return Failure(Unexpected);
      }
    }

    /** The first word of a statement; another token is given back if restore says so. */
    method Open(str: TokenStream, typ: TokenType, restore: bool) returns (o: Outcome<Ast>)
      requires Fit(str) && str.idx <= 1 && !typ.EOF? && !typ.ERR? && !IsLiteral(typ)
      modifies str, str.buf
      ensures Usable(str, SLOTS)
      ensures
        var xs := old(str.Ahead());
        if Head(xs).typ == typ then
          && o.Success? && fresh(o.value) && o.value.Valid() && o.value.bits == [Glued(typ)]
          && Fit(str) && str.Ahead() == Tail(xs) && str.idx == 0
        else
          o == Failure(NotAMatch) && (restore ==> Fit(str) && str.Ahead() == xs)
    {
      hide Fit, Word, TokenStream.Valid, TokenStream.Content, TokenStream.Ahead, Spelled, Head, Tail, Ast.Valid;
      ghost var xs := str.Ahead();
      FitIsReady(str);
      var t := Take(str);
      if t.typ != typ {
        if restore {
          Reject(str, t, xs);
        }
        return Failure(NotAMatch);
      }
      var a := new Ast(t);
      return Success(a);
    }

    /** Appends the arguments, separated by commas. */
    method AppendArgs(a: Ast, args: seq<Arg>, ghost xs: Input)
      requires a.Valid() && args == ArgsOf(xs)
      modifies a
      ensures a.Valid() && a.bits == old(a.bits) + ArgBits(xs)
    {
      hide Ast.Valid, ArgBits, Print, Word;
      ghost var bits0 := a.bits;
      NoArgBits(bits0);
      var i := 0;
      while i < |args|
        invariant 0 <= i <= |args| && a.Valid()
        invariant a.bits == bits0 + ArgBits(xs[..i])
      {
        ArgText(xs, i);
        ArgBitsAppend(xs, i);
        ghost var bits1 := a.bits;
        if 0 < i {
          CommaText();
          a.AppendText(",", [Glued(COMMA)]);
        }
        a.AppendTextSpace(args[i].text, [Bit(true, xs[i])]);
        assert a.bits == bits0 + (ArgBits(xs[..i]) + (if 0 < i then [Glued(COMMA)] else []) + [Bit(true, xs[i])]);
        i := i + 1;
      }
      assert xs[..i] == xs;
    }

    /** What sources and sinks share: a class, its arguments and the end of the line. */
    method ParseCall(str: TokenStream, a: Ast, eng: Engine) returns (o: Outcome<(string, string, seq<Arg>)>)
      requires Fit(str) && str.idx == 0 && a.Valid()
      modifies str, str.buf, a
      ensures Usable(str, SLOTS)
      ensures
        var r := ReadCall(old(str.Ahead()), Sc(), eng);
        if r.No? then o == Failure(r.err)
        else
          var (q, c, args) := r.value;
          && o == Success((q, c, ArgsOf(args))) && str.Ahead() == r.rest && Sc() == r.scope && AtLineEnd(str)
          && a.Valid() && a.bits == old(a.bits) + ClassBits(q, c) + ArgBits(args)
    {
      hide Fit, Word, TokenStream.Valid, TokenStream.Content, TokenStream.Ahead, Spelled, Head, Tail, Ast.Valid,
        ReadClass, ReadArgs, ReadEol, AtLineEnd, ClassBits, ArgBits, Print, ArgsOf;
      var c, text := ParseClass(str);
      if c.Failure? {
        return Failure(c.err);
      }
      a.AppendTextSpace(text, ClassBits(c.value.0, c.value.1));
      ghost var xs := ReadArgs(str.Ahead(), Sc(), eng, false);
      var args :- ParseArgs(str, eng);
      AppendArgs(a, args, xs.value);
      var _ :- ParseRequiredEol(str);
      return Success((c.value.0, c.value.1, args));
    }

    /** A statement was parsed as the specification reads it; the node is that of the statement. */
    ghost predicate Parsed(o: Outcome<Node>, r: Parse<Stmt>, str: TokenStream)
      reads this, str, str.buf
    {
      && Usable(str, SLOTS)
      && if r.Ok? then o == Success(NodeOf(r.value)) && str.Ahead() == r.rest && Sc() == r.scope && AtLineEnd(str)
         else o == Failure(r.err)
    }

    method ParseSource(str: TokenStream, eng: Engine) returns (o: Outcome<Node>)
      requires Fit(str) && str.idx <= 1
      modifies this, str, str.buf
      ensures
        var xs, sc := old(str.Ahead()), old(Sc());
        if Head(xs).typ == SOURCE then Parsed(o, ReadSourceStmt(xs, sc, eng), str)
        else o == Failure(NotAMatch) && Fit(str) && str.Ahead() == xs
    {
      hide Fit, TokenStream.Valid, TokenStream.Ahead, AtLineEnd, Tail, Ast.Valid,
        ParseSpec.Want, ParseSpec.DefineSource, ReadCall, ClassBits, ArgBits, Print, ArgsOf, Word, NodeOf;
      var a :- Open(str, SOURCE, true);
      WantIs(old(str.Ahead()), Sc(), SOURCE);
      var _ :- Want(str, AS, a, true);
      var id :- DefineSource(str, a);
      ghost var r := ReadCall(str.Ahead(), Sc(), eng);
      var call :- ParseCall(str, a, eng);
      NodeText(a);
      SourceText(a.bits, id, r.value.0, r.value.1, r.value.2);
      return Success(Node(a.text, SourceNode(id, call.0, call.1, call.2)));
    }

    /** What follows the word async. */
    method ParseAsync(str: TokenStream, a: Ast) returns (o: Outcome<string>)
      requires Fit(str) && a.Valid()
      modifies this, str, a
      ensures Usable(str, old(str.idx))
      ensures Agrees(o, ReadAsync(old(str.Ahead()), old(Sc())), str.Ahead(), Sc())
      ensures o.Success? ==>
        Fit(str) && a.Valid() && a.bits == old(a.bits) + [Spc(AS)] + [Id(o.value)] + [Spc(TO)]
    {
      hide Fit, TokenStream.Valid, TokenStream.Ahead, Ast.Valid, ParseSpec.Want, ParseSpec.DefineSink, Id, Word;
      var _ :- Want(str, AS, a, true);
      var id :- DefineSink(str, a);
      var _ :- Want(str, TO, a, true);
      return Success(id);
    }

    /** What stands between the source of a sink and its class. */
    method ParseMode(str: TokenStream, a: Ast) returns (o: Outcome<Option<string>>)
      requires Fit(str) && a.Valid()
      modifies this, str, a
      ensures Usable(str, old(str.idx))
      ensures Agrees(o, ReadMode(old(str.Ahead()), old(Sc())), str.Ahead(), Sc())
      ensures o.Success? ==> Fit(str) && a.Valid() && a.bits == old(a.bits) + ModeBits(o.value)
    {
      hide Fit, TokenStream.Valid, TokenStream.Content, TokenStream.Ahead, Tail, Ast.Valid, ReadAsync,
        ParseSpec.Want, Head, ModeBits, Id, Word;
      ghost var bits := a.bits;
      WantIs(str.Ahead(), Sc(), TO);
      var asyncTo := Take(str);
      if asyncTo.typ == ASYNC {
        a.AppendSpace(asyncTo);
        var id :- ParseAsync(str, a);
        ModeBitsBehind(bits, id);
        return Success(Some(id));
      }
      if asyncTo.typ != TO {
        return Failure(Unexpected);
      }
      a.AppendSpace(asyncTo);
      ModeBitsBehind(bits, "");
      return Success(None);
    }

    method ParseSink(str: TokenStream, eng: Engine) returns (o: Outcome<Node>)
      requires Fit(str) && str.idx <= 1
      modifies this, str, str.buf
      ensures
        var xs, sc := old(str.Ahead()), old(Sc());
        if Head(xs).typ == SINK then Parsed(o, ReadSinkStmt(xs, sc, eng), str)
        else o == Failure(NotAMatch) && Fit(str) && str.Ahead() == xs
    {
      hide Fit, TokenStream.Valid, TokenStream.Ahead, AtLineEnd, Tail, Ast.Valid, ParseSpec.Want,
        ParseSpec.ConsumeSource, ReadMode, ReadCall, ModeBits, ClassBits, ArgBits, Print, ArgsOf, Word, NodeOf;
      var a :- Open(str, SINK, true);
      WantIs(old(str.Ahead()), Sc(), SINK);
      var src :- ConsumeSource(str, a);
      var mode :- ParseMode(str, a);
      ghost var r := ReadCall(str.Ahead(), Sc(), eng);
      var call :- ParseCall(str, a, eng);
      NodeText(a);
      SinkText(a.bits, src, mode, r.value.0, r.value.1, r.value.2);
      var id := if mode.Some? then mode.value else "";
      return Success(Node(a.text, SinkNode(src, mode.Some?, false, id, call.0, call.1, call.2)));
    }

    method ConsumePair(str: TokenStream, a: Ast) returns (o: Outcome<(string, string)>)
      requires Fit(str) && a.Valid()
      modifies this, str, a
      ensures Usable(str, old(str.idx))
      ensures Agrees(o, ParseSpec.ConsumePair(old(str.Ahead()), old(Sc())), str.Ahead(), Sc())
      ensures o.Success? ==>
        Fit(str) && a.Valid() && a.bits == old(a.bits) + PairBits(o.value.0, o.value.1)
    {
      hide Fit, TokenStream.Valid, TokenStream.Ahead, Ast.Valid, ParseSpec.Want, ParseSpec.ConsumeSource,
        PairBits, Id, Word;
      ghost var bits := a.bits;
      var x :- ConsumeSource(str, a);
      var _ :- Want(str, AND, a, true);
      var y :- ConsumeSource(str, a);
      PairBitsBehind(bits, x, y);
      return Success((x, y));
    }

    method DefinePair(str: TokenStream, a: Ast) returns (o: Outcome<(string, string)>)
      requires Fit(str) && a.Valid()
      modifies this, str, a
      ensures Usable(str, old(str.idx))
      ensures Agrees(o, ParseSpec.DefinePair(old(str.Ahead()), old(Sc())), str.Ahead(), Sc())
      ensures o.Success? ==>
        Fit(str) && a.Valid() && a.bits == old(a.bits) + PairBits(o.value.0, o.value.1)
    {
      hide Fit, TokenStream.Valid, TokenStream.Ahead, Ast.Valid, ParseSpec.Want, ParseSpec.DefineSource,
        PairBits, Id, Word;
      ghost var bits := a.bits;
      var x :- DefineSource(str, a);
      var _ :- Want(str, AND, a, true);
      var y :- DefineSource(str, a);
      PairBitsBehind(bits, x, y);
      return Success((x, y));
    }

    /** What follows the word merge. */
    method ParseUnion(str: TokenStream, a: Ast) returns (o: Outcome<(string, string, string)>)
      requires Fit(str) && str.idx == 0 && a.Valid()
      modifies this, str, str.buf, a
      ensures Usable(str, SLOTS)
      ensures Agrees(o, ReadUnion(old(str.Ahead()), old(Sc())), str.Ahead(), Sc())
      ensures o.Success? ==>
        && AtLineEnd(str) && a.Valid()
        && a.bits == old(a.bits) + PairBits(o.value.0, o.value.1) + [Spc(AS)] + [Id(o.value.2)]
    {
      hide Fit, TokenStream.Valid, TokenStream.Ahead, AtLineEnd, Tail, Ast.Valid, ParseSpec.Want,
        ParseSpec.ConsumePair, ParseSpec.DefineSource, ReadEol, Word, PairBits, Id;
      var srcs :- ConsumePair(str, a);
      var _ :- Want(str, AS, a, true);
      var id :- DefineSource(str, a);
      var _ :- ParseRequiredEol(str);
      return Success((srcs.0, srcs.1, id));
    }

    method ParseMerge(str: TokenStream) returns (o: Outcome<Node>)
      requires Fit(str) && str.idx <= 1
      modifies this, str, str.buf
      ensures
        var xs, sc := old(str.Ahead()), old(Sc());
        if Head(xs).typ == MERGE then Parsed(o, ReadMergeStmt(xs, sc), str)
        else o == Failure(NotAMatch) && Fit(str) && str.Ahead() == xs
    {
      hide Fit, TokenStream.Valid, TokenStream.Ahead, AtLineEnd, Tail, Ast.Valid, ParseSpec.Want, ReadUnion,
        Print, Word, NodeOf, PairBits, Id;
      var a :- Open(str, MERGE, true);
      WantIs(old(str.Ahead()), Sc(), MERGE);
      var ids :- ParseUnion(str, a);
      NodeText(a);
      MergeText(a.bits, ids.0, ids.1, ids.2);
      return Success(Node(a.text, MergeNode(ids.0, ids.1, ids.2)));
    }

    /** The common part of dupe and fanout. */
    method ParseSplit(str: TokenStream, a: Ast) returns (o: Outcome<(string, string, string)>)
      requires Fit(str) && str.idx == 0 && a.Valid()
      modifies this, str, str.buf, a
      ensures Usable(str, SLOTS)
      ensures Agrees(o, ReadSplit(old(str.Ahead()), old(Sc())), str.Ahead(), Sc())
      ensures o.Success? ==>
        && AtLineEnd(str) && a.Valid()
        && a.bits == old(a.bits) + SplitBits(o.value.0, o.value.1, o.value.2)
    {
      hide Fit, TokenStream.Valid, TokenStream.Ahead, AtLineEnd, Tail, Ast.Valid, ParseSpec.Want,
        ParseSpec.ConsumeSource, ParseSpec.DefinePair, ReadEol, Word, SplitBits, PairBits, Id;
      ghost var bits := a.bits;
      var src :- ConsumeSource(str, a);
      var _ :- Want(str, AS, a, true);
      var targets :- DefinePair(str, a);
      SplitBitsBehind(bits, src, targets.0, targets.1);
      var _ :- ParseRequiredEol(str);
      return Success((src, targets.0, targets.1));
    }

    method ParseDupe(str: TokenStream) returns (o: Outcome<Node>)
      requires Fit(str) && str.idx <= 1
      modifies this, str, str.buf
      ensures
        var xs, sc := old(str.Ahead()), old(Sc());
        if Head(xs).typ == DUPE then Parsed(o, ReadDupeStmt(xs, sc), str)
        else o == Failure(NotAMatch) && Fit(str) && str.Ahead() == xs
    {
      hide Fit, TokenStream.Valid, TokenStream.Ahead, AtLineEnd, Tail, Ast.Valid, ParseSpec.Want, ReadSplit,
        Print, Word, NodeOf;
      var a :- Open(str, DUPE, true);
      WantIs(old(str.Ahead()), Sc(), DUPE);
      var ids :- ParseSplit(str, a);
      NodeText(a);
      SplitText(a.bits, DUPE, ids.0, ids.1, ids.2);
      return Success(Node(a.text, DupeNode(ids.0, ids.1, ids.2)));
    }

    method ParseFanout(str: TokenStream) returns (o: Outcome<Node>)
      requires Fit(str) && str.idx <= 1
      modifies this, str, str.buf
      ensures
        var xs, sc := old(str.Ahead()), old(Sc());
        if Head(xs).typ == FANOUT then Parsed(o, ReadFanoutStmt(xs, sc), str) else o == Failure(NotAMatch)
    {
      hide Fit, TokenStream.Valid, TokenStream.Ahead, AtLineEnd, Tail, Ast.Valid, ParseSpec.Want, ReadSplit,
        Print, Word, NodeOf;
      var a :- Open(str, FANOUT, false);
      WantIs(old(str.Ahead()), Sc(), FANOUT);
      var ids :- ParseSplit(str, a);
      NodeText(a);
      SplitText(a.bits, FANOUT, ids.0, ids.1, ids.2);
      return Success(Node(a.text, FanoutNode(ids.0, ids.1, ids.2)));
    }

    method ParseTarget(str: TokenStream, a: Ast) returns (o: Outcome<string>)
      requires Fit(str) && a.Valid()
      modifies str, a
      ensures Usable(str, old(str.idx))
      ensures Agrees(o, ReadTarget(old(str.Ahead()), Sc()), str.Ahead(), Sc())
      ensures o.Success? ==> Fit(str) && a.Valid() && a.bits == old(a.bits) + TargetBits(o.value)
    {
      hide Fit, TokenStream.Valid, TokenStream.Ahead, Ast.Valid, ParseSpec.Want, TargetBits, Word;
      ghost var bits := a.bits;
      var _ :- Want(str, TO, a, true);
      var target :- Want(str, IDENTIFIER, a, true);
      if target !in sources {
        return Failure(Undefined);
      }
      TargetBitsBehind(bits, target);
      return Success(target);
    }

    method ParseAppend(str: TokenStream) returns (o: Outcome<Node>)
      requires Fit(str) && str.idx <= 1
      modifies this, str, str.buf
      ensures
        var xs, sc := old(str.Ahead()), old(Sc());
        if Head(xs).typ == APPEND then Parsed(o, ReadAppendStmt(xs, sc), str)
        else o == Failure(NotAMatch) && Fit(str) && str.Ahead() == xs
    {
      hide Fit, TokenStream.Valid, TokenStream.Ahead, AtLineEnd, Tail, Ast.Valid, ParseSpec.Want,
        ParseSpec.ConsumeSource, ReadTarget, TargetBits, ReadEol, Print, Word, NodeOf, Id;
      var a :- Open(str, APPEND, true);
      WantIs(old(str.Ahead()), Sc(), APPEND);
      var src :- ConsumeSource(str, a);
      var target :- ParseTarget(str, a);
      var _ :- ParseRequiredEol(str);
      NodeText(a);
      AppendText(a.bits, src, target);
      return Success(Node(a.text, AppendNode(src, target)));
    }

    /** What tag and join start with. */
    method ParseSubject(str: TokenStream, a: Ast) returns (o: Outcome<string>)
      requires Fit(str) && a.Valid()
      modifies str, a
      ensures Usable(str, old(str.idx))
      ensures Agrees(o, ReadSubject(old(str.Ahead()), Sc()), str.Ahead(), Sc())
      ensures o.Success? ==> Fit(str) && a.Valid() && a.bits == old(a.bits) + SubjectBits(o.value)
    {
      hide Fit, TokenStream.Valid, TokenStream.Ahead, Ast.Valid, ParseSpec.Want, ReadSource, SubjectBits, Id, Word;
      ghost var bits := a.bits;
      var src :- LiveSource(str, a);
      var _ :- Want(str, WITH, a, true);
      SubjectBitsBehind(bits, src);
      return Success(src);
    }

    method ParseTag(str: TokenStream) returns (o: Outcome<Node>)
      requires Fit(str) && str.idx <= 1
      modifies this, str, str.buf
      ensures
        var xs, sc := old(str.Ahead()), old(Sc());
        if Head(xs).typ == TAG then Parsed(o, ReadTagStmt(xs, sc), str) else o == Failure(NotAMatch)
    {
      hide Fit, TokenStream.Valid, TokenStream.Ahead, AtLineEnd, Tail, Ast.Valid, ParseSpec.Want,
        ReadSubject, SubjectBits, ReadEol, Print, Word, NodeOf, Escape;
      var a :- Open(str, TAG, false);
      WantIs(old(str.Ahead()), Sc(), TAG);
      var src :- ParseSubject(str, a);
      var tag :- Want(str, STRING, a, true);
      var _ :- ParseRequiredEol(str);
      NodeText(a);
      TagText(a.bits, src, tag);
      return Success(Node(a.text, TagNode(src, Escape(tag))));
    }

    /** The patterns of a join, as they are written. */
    method ParseJoinPatterns(str: TokenStream, eng: Engine) returns (o: Outcome<seq<string>>)
      requires Fit(str) && str.idx == 0
      modifies str, str.buf
      ensures Usable(str, SLOTS)
      ensures
        var r := ReadPatterns(old(str.Ahead()), Sc(), eng);
        if r.No? then o == Failure(r.err)
        else o == Success(r.value) && o.value != [] && Fit(str) && str.Ahead() == r.rest && str.idx <= 1
    {
      hide Fit, Word, TokenStream.Valid, TokenStream.Content, TokenStream.Ahead, Spelled, Head, Tail,
        ReadPatterns, Prefixed, Escape;
      ghost var r := ReadPatterns(str.Ahead(), Sc(), eng);
      var patterns := [];
      PrefixedLaws(patterns, "", r);
      while true
        invariant Fit(str) && str.idx == 0
        invariant r == Prefixed(patterns, PatternsBehind(str.Ahead(), Sc(), eng, patterns != []))
        decreases |str.Ahead()|
      {
        ghost var xs := str.Ahead();
        FitIsReady(str);
        PatternsStep(xs, Sc(), eng, patterns != []);
        PrefixedLaws(patterns, "", PatternsBehind(xs, Sc(), eng, patterns != []));
        if patterns != [] {
          var t := Take(str);
          if t.typ != COMMA {
            Reject(str, t, xs);
            return Success(patterns);
          }
        }
        ghost var ys := str.Ahead();
        var pattern := Take(str);
        if pattern.typ != STRING {
          return Failure(Unexpected);
        }
        if !eng.patternOk(Escape(pattern.text)) {
          return Failure(InvalidPattern);
        }
        PrefixedLaws(patterns, pattern.text, PatternsBehind(Tail(ys), Sc(), eng, true));
        patterns := patterns + [pattern.text];
      }
    }

    /** Reads the patterns of a join and appends their text. */
    method ParsePatterns(str: TokenStream, a: Ast, eng: Engine) returns (o: Outcome<seq<string>>)
      requires Fit(str) && str.idx == 0 && a.Valid()
      modifies str, str.buf, a
      ensures Usable(str, SLOTS)
      ensures Agrees(o, ReadPatterns(old(str.Ahead()), Sc(), eng), str.Ahead(), Sc())
      ensures o.Success? ==>
        Fit(str) && str.idx <= 1 && a.Valid() && a.bits == old(a.bits) + ArgBits(StringShapes(o.value))
    {
      hide Fit, TokenStream.Valid, TokenStream.Ahead, Ast.Valid, ReadPatterns, Print, ArgBits, StringShapes, Word;
      var patterns :- ParseJoinPatterns(str, eng);
      PatternsText(patterns);
      a.AppendTextSpace(JoinTexts(patterns), ArgBits(StringShapes(patterns)));
      return Success(patterns);
    }

    method ParseJoin(str: TokenStream, eng: Engine) returns (o: Outcome<Node>)
      requires Fit(str) && str.idx <= 1
      modifies this, str, str.buf
      ensures
        var xs, sc := old(str.Ahead()), old(Sc());
        if Head(xs).typ == JOIN then Parsed(o, ReadJoinStmt(xs, sc, eng), str) else o == Failure(NotAMatch)
    {
      hide Fit, TokenStream.Valid, TokenStream.Ahead, AtLineEnd, Tail, Ast.Valid, ParseSpec.Want,
        ReadSubject, SubjectBits, ReadPatterns, ReadEol, Print, ArgBits, StringShapes, Word, NodeOf, Escape, Escapes;
      var a :- Open(str, JOIN, false);
      WantIs(old(str.Ahead()), Sc(), JOIN);
      var src :- ParseSubject(str, a);
      var patterns :- ParsePatterns(str, a, eng);
      var _ :- ParseRequiredEol(str);
      NodeText(a);
      JoinText(a.bits, src, patterns);
      return Success(Node(a.text, JoinNode(src, Escapes(patterns))));
    }

    /** The delimiter of a cut, if any, and its source. */
    method ParseCutHead(str: TokenStream, a: Ast) returns (o: Outcome<(Option<string>, string)>)
      requires Fit(str) && a.Valid()
      modifies str, a
      ensures Usable(str, old(str.idx))
      ensures Agrees(o, ReadCutHead(old(str.Ahead()), Sc()), str.Ahead(), Sc())
      ensures o.Success? ==>
        Fit(str) && a.Valid() && a.bits == old(a.bits) + DelimiterBits(o.value.0) + [Id(o.value.1)]
    {
      hide Fit, TokenStream.Valid, TokenStream.Content, TokenStream.Ahead, Tail, Ast.Valid,
        ParseSpec.Want, Head, DelimiterBits, Word;
      ghost var bits := a.bits;
      DelimiterBitsBehind(bits, "");
      WantIs(str.Ahead(), Sc(), IDENTIFIER);
      WantIs(Tail(str.Ahead()), Sc(), STRING);
      WantIs(Tail(Tail(str.Ahead())), Sc(), IDENTIFIER);
      var delimiter := None;
      var withId := Take(str);
      if withId.typ == WITH {
        a.AppendSpace(withId);
        var s :- Want(str, STRING, a, true);
        DelimiterBitsBehind(bits, s);
        delimiter := Some(s);
        withId := Take(str);
      }
      if withId.typ != IDENTIFIER {
        return Failure(Unexpected);
      }
      if withId.text in consumed {
        return Failure(AlreadyConsumed);
      }
      a.AppendSpace(withId);
      return Success((delimiter, withId.text));
    }

    /** One field setting; the first one of a list has no space in front of it. */
    method ParseField(str: TokenStream, a: Ast, first: bool) returns (o: Outcome<(string, string)>)
      requires Fit(str) && str.idx == 0 && a.Valid()
      modifies str, str.buf, a
      ensures Usable(str, SLOTS)
      ensures
        var xs := old(str.Ahead());
        if Head(xs).typ == RPAR then o == Failure(NotAMatch) && Fit(str) && str.Ahead() == xs && str.idx <= 1
        else Agrees(o, ReadField(xs, Sc()), str.Ahead(), Sc())
      ensures o.Success? ==>
        && Fit(str) && str.idx == 0 && a.Valid()
        && a.bits == old(a.bits) + FieldBit(o.value.0, o.value.1, first)
    {
      hide Fit, TokenStream.Valid, TokenStream.Content, TokenStream.Ahead, Tail, Ast.Valid,
        ParseSpec.Want, Head, FieldBit, Word, IntOk;
      ghost var bits, xs := a.bits, str.Ahead();
      FitIsReady(str);
      WantIs(xs, Sc(), IDENTIFIER);
      var id := Take(str);
      if id.typ != IDENTIFIER {
        if id.typ == RPAR {
          Reject(str, id, xs);
          return Failure(NotAMatch);
        }
        return Failure(Unexpected);
      }
      if first {
        a.Append(id);
      } else {
        a.AppendSpace(id);
      }
      var _ :- Want(str, EQ, a, true);
      var num :- Want(str, INT, a, true);
      if !IntOk(num) {
        return Failure(InvalidInt);
      }
      FieldBitBehind(bits, id.text, num, first);
      return Success((id.text, num));
    }

    /** The field settings of a cut. closed is false if a parenthesis stood in the place of a setting;
        it is still ahead then. */
    method ParseFields(str: TokenStream, a: Ast)
      returns (o: Outcome<map<string, int>>, closed: bool, ghost fields: seq<(string, string)>)
      requires Fit(str) && str.idx == 0 && a.Valid()
      modifies str, str.buf, a
      ensures Usable(str, SLOTS)
      ensures
        var r := ReadFields(old(str.Ahead()), Sc());
        if o.Failure? then r == No(o.err)
        else if !closed then r == No(Unexpected) && Fit(str) && str.idx <= 1 && Head(str.Ahead()).typ == RPAR
        else
          && r == Ok(fields, str.Ahead(), Sc()) && Fit(str) && str.idx == 0
          && o.value == FieldSets(fields)
          && a.Valid() && a.bits == old(a.bits) + FieldBits(fields, true) + [Glued(RPAR)]
    {
      hide Fit, TokenStream.Valid, TokenStream.Content, TokenStream.Ahead, Tail, Ast.Valid, Head, FieldBits,
        FieldBit, FieldSets, ReadField, ReadFields, Prefixed, Word, IntOk, IntValue;
      ghost var r, bits := ReadFields(str.Ahead(), Sc()), a.bits;
      var fieldSets: map<string, int> := map[];
      var first := true;
      fields := [];
      FieldsStart(bits, r);
      while true
        invariant Fit(str) && str.idx == 0 && a.Valid()
        invariant r == Prefixed(fields, FieldsBehind(str.Ahead(), Sc(), !first))
        invariant first == (fields == []) && fieldSets == FieldSets(fields)
        invariant a.bits == bits + FieldBits(fields, true)
        decreases |str.Ahead()|
      {
        FitIsReady(str);
        ghost var xs := str.Ahead();
        FieldsStep(xs, Sc(), !first);
        PrefixedLaws(fields, ("", ""), FieldsBehind(xs, Sc(), !first));
        if !first {
          var commaParen := Take(str);
          if commaParen.typ == RPAR {
            a.Append(commaParen);
            return Success(fieldSets), true, fields;
          }
          if commaParen.typ != COMMA {
            return Failure(Unexpected), false, fields;
          }
          a.Append(commaParen);
        }
        ghost var ys := str.Ahead();
        var field := ParseField(str, a, first);
        if field == Failure(NotAMatch) {
          return Success(fieldSets), false, fields;
        }
        if field.Failure? {
          return Failure(field.err), false, fields;
        }
        FieldsAppend(bits, fields, field.value);
        PrefixedLaws(fields, field.value, FieldsBehind(str.Ahead(), Sc(), true));
        fieldSets := fieldSets[field.value.0 := IntValue(field.value.1)];
        fields := fields + [field.value];
        first := false;
      }
    }

    method ParseFieldSet(str: TokenStream, a: Ast)
      returns (o: Outcome<map<string, int>>, ghost fields: seq<(string, string)>)
      requires Fit(str) && str.idx == 0 && a.Valid()
      modifies str, str.buf, a
      ensures Usable(str, SLOTS)
      ensures
        var r := ReadFieldSet(old(str.Ahead()), Sc());
        if o.Failure? then r == No(o.err)
        else
          && r == Ok(fields, str.Ahead(), Sc()) && AtLineEnd(str) && o.value == FieldSets(fields)
          && a.Valid() && a.bits == old(a.bits) + [Spc(SET)] + [Spc(LPAR)] + FieldBits(fields, true) + [Glued(RPAR)]
    {
      hide Fit, TokenStream.Valid, TokenStream.Content, TokenStream.Ahead, AtLineEnd, Tail, Ast.Valid,
        FieldBits, FieldSets, ReadFields, ParseSpec.Want, Word;
      fields := [];
      o := Failure(Unexpected);
      var _ :- Want(str, SET, a, true);
      var _ :- Want(str, LPAR, a, true);
      var closed;
      o, closed, fields := ParseFields(str, a);
      if o.Success? {
        var eol := ParseRequiredEol(str);
        if eol.Failure? {
          o := Failure(eol.err);
        }
      }
    }

    method ParseCut(str: TokenStream) returns (o: Outcome<Node>)
      requires Fit(str) && str.idx <= 1
      modifies this, str, str.buf
      ensures
        var xs, sc := old(str.Ahead()), old(Sc());
        if Head(xs).typ == CUT then Parsed(o, ReadCutStmt(xs, sc), str)
        else o == Failure(NotAMatch) && Fit(str) && str.Ahead() == xs
    {
      hide Fit, TokenStream.Valid, TokenStream.Ahead, AtLineEnd, Tail, Ast.Valid, ParseSpec.Want,
        ReadCutHead, ReadFieldSet, DelimiterBits, FieldBits, FieldSets, Print, Word, NodeOf, Escape;
      var a :- Open(str, CUT, true);
      WantIs(old(str.Ahead()), Sc(), CUT);
      var head :- ParseCutHead(str, a);
      var set_, fields := ParseFieldSet(str, a);
      if set_.Failure? {
        return Failure(set_.err);
      }
      NodeText(a);
      CutText(a.bits, head.0, head.1, fields);
      var delimiter := if head.0.None? then " " else Escape(head.0.value);
      return Success(Node(a.text, CutNode(delimiter, head.1, set_.value)));
    }

    /** An empty line, or a token that no statement starts with. */
    method ParseOther(str: TokenStream, typ: TokenType, eng: Engine) returns (o: Outcome<Node>)
      requires Fit(str) && str.idx <= 1 && typ == Head(str.Ahead()).typ && !typ.EOF? && !typ.ERR?
      requires ReadStmt(str.Ahead(), Sc(), eng)
        == if typ == EOL then Ok(Blank, Tail(str.Ahead()), Sc()) else No(Unexpected)
      modifies str, str.buf
      ensures Parsed(o, ReadStmt(old(str.Ahead()), old(Sc()), eng), str)
    {
      hide Fit, TokenStream.Valid, TokenStream.Content, TokenStream.Ahead, Head, Tail, NodeOf, ReadStmt;
      if typ == EOL {
        EolNodeOf(str);
        o := ParseEol(str);
      } else {
        var _ := Take(str);
        o := Failure(Unexpected);
      }
    }

    /** The statement that the token typ, which has been looked at, starts. */
    method ParseStmt(str: TokenStream, typ: TokenType, eng: Engine) returns (o: Outcome<Node>)
      requires Fit(str) && str.idx <= 1 && typ == Head(str.Ahead()).typ && !typ.EOF? && !typ.ERR?
      modifies this, str, str.buf
      ensures Parsed(o, ReadStmt(old(str.Ahead()), old(Sc()), eng), str)
    {
      hide Fit, TokenStream.Valid, TokenStream.Content, TokenStream.Ahead, Head, Tail, NodeOf, Parsed,
        ReadSourceStmt, ReadSinkStmt, ReadMergeStmt, ReadDupeStmt, ReadAppendStmt, ReadCutStmt, ReadFanoutStmt,
        ReadTagStmt, ReadJoinStmt;
      if typ == SOURCE {
        o := ParseSource(str, eng);
      } else if typ == SINK {
        o := ParseSink(str, eng);
      } else if typ == MERGE {
        o := ParseMerge(str);
      } else if typ == DUPE {
        o := ParseDupe(str);
      } else if typ == APPEND {
        o := ParseAppend(str);
      } else if typ == CUT {
        o := ParseCut(str);
      } else if typ == FANOUT {
        o := ParseFanout(str);
      } else if typ == TAG {
        o := ParseTag(str);
      } else if typ == JOIN {
        o := ParseJoin(str, eng);
      } else {
        o := ParseOther(str, typ, eng);
      }
    }

    /** The token at the start of a line. */
    method LookAtLine(str: TokenStream) returns (t: Token)
      requires AtLineEnd(str)
      modifies str, str.buf
      ensures Usable(str, SLOTS) && ShapeOf(t) == Head(old(str.Ahead()))
      ensures old(str.Ahead()) != [] ==> Fit(str) && str.Ahead() == old(str.Ahead()) && str.idx <= 1
    {
      hide Ready;
      if str.Content() != [] {
        ShapesOfTail(str.Content());
        ErrorIsLast(str.Ahead());
      }
      t := str.Peek();
    }

    /** The nodes of a script, or the error that ends it. */
    method Parse(str: TokenStream, eng: Engine) returns (nodes: seq<Node>, err: Option<ParseErr>)
      requires AtLineEnd(str)
      modifies this, str, str.buf
      ensures Usable(str, SLOTS)
      ensures
        var r := ReadScript(old(str.Ahead()), old(Sc()), eng);
        if r.Done? then err == None && nodes == Nodes(r.stmts) && Sc() == r.scope
        else err == Some(r.err)
    {
      hide Fit, TokenStream.Valid, TokenStream.Content, TokenStream.Ahead, Tail, NodeOf, ReadStmt, ReadScript;
      ghost var r := ReadScript(str.Ahead(), Sc(), eng);
      ghost var stmts: seq<Stmt> := [];
      nodes := [];
      BehindNothing(r);
      while true
        invariant AtLineEnd(str) && nodes == Nodes(stmts)
        invariant r == Behind(stmts, ReadScript(str.Ahead(), Sc(), eng))
        decreases |str.Ahead()|
      {
        ghost var xs, s := str.Ahead(), ReadStmt(str.Ahead(), Sc(), eng);
        ScriptStep(xs, Sc(), eng, stmts);
        var t := LookAtLine(str);
        if t.typ == EOF {
          return nodes, None;
        }
        if t.typ == ERR {
          return nodes, Some(LexFailure(t.text));
        }
        var node := ParseStmt(str, t.typ, eng);
        if node.Failure? {
          return [], Some(node.err);
        }
        NodesAppend(stmts, s.value);
        nodes := nodes + [node.value];
        stmts := stmts + [s.value];
      }
    }
  }

  /** What is read behind some patterns; more says that there are any. */
  ghost function PatternsBehind(xs: Input, sc: Scope, eng: Engine, more: bool): Parse<seq<string>> {
    if !more then ReadPatterns(xs, sc, eng)
    else if Head(xs).typ != COMMA then Ok([], xs, sc)
    else ReadPatterns(Tail(xs), sc, eng)
  }

  lemma {:induction false} PatternsStep(xs: Input, sc: Scope, eng: Engine, more: bool)
    ensures
      var r := PatternsBehind(xs, sc, eng, more);
      var ys := if more then Tail(xs) else xs;
      var x := Head(ys);
      if more && Head(xs).typ != COMMA then r == Ok([], xs, sc)
      else if x.typ != STRING then r == No(Unexpected)
      else if !eng.patternOk(Escape(x.text)) then r == No(InvalidPattern)
      else |Tail(ys)| < |xs| && r == Prefixed([x.text], PatternsBehind(Tail(ys), sc, eng, true))
  {
    hide Escape;
    var ys := if more then Tail(xs) else xs;
    assert [Head(ys).text] + [] == [Head(ys).text];
  }

  /** The patterns, separated by a comma and a space. */
  function JoinTexts(patterns: seq<string>): string {
    if patterns == [] then "" else if |patterns| == 1 then patterns[0]
    else patterns[0] + ", " + JoinTexts(patterns[1..])
  }

  lemma {:induction false} MorePatternsText(patterns: seq<string>)
    requires patterns != []
    ensures Print(MoreArgBits(StringShapes(patterns))) == ", " + JoinTexts(patterns)
  {
    hide Word, Print, MoreArgBits, StringShapes;
    var more := MoreArgBits(StringShapes(patterns[1..]));
    var bits := [Glued(COMMA)] + [Bit(true, Shape(STRING, patterns[0]))];
    assert MoreArgBits(StringShapes(patterns)) == bits + more by { MoreStringBits(patterns); }
    PrintConcat(bits, more);
    PrintConcat([Glued(COMMA)], [Bit(true, Shape(STRING, patterns[0]))]);
    CommaText();
    PrintOne(Bit(true, Shape(STRING, patterns[0])));
    assert Print(bits) == ", " + patterns[0];
    if 1 < |patterns| {
      MorePatternsText(patterns[1..]);
      assert (", " + patterns[0]) + (", " + JoinTexts(patterns[1..]))
        == ", " + (patterns[0] + ", " + JoinTexts(patterns[1..]));
    } else {
      assert more == [] by { NoMoreBits(); }
      PrintNone();
    }
  }

  lemma {:induction false} MoreStringBits(patterns: seq<string>)
    requires patterns != []
    ensures MoreArgBits(StringShapes(patterns)) ==
      [Glued(COMMA)] + [Bit(true, Shape(STRING, patterns[0]))] + MoreArgBits(StringShapes(patterns[1..]))
  {
  }

  lemma {:induction false} NoMoreBits()
    ensures MoreArgBits(StringShapes([])) == []
  {
  }

  lemma {:induction false} PatternsText(patterns: seq<string>)
    requires patterns != []
    ensures Print(ArgBits(StringShapes(patterns))) == " " + JoinTexts(patterns)
  {
    hide Word;
    var more := MoreArgBits(StringShapes(patterns[1..]));
    var first := [Bit(true, Shape(STRING, patterns[0]))];
    assert ArgBits(StringShapes(patterns)) == first + more;
    PrintConcat(first, more);
    PrintOne(first[0]);
    if 1 < |patterns| {
      MorePatternsText(patterns[1..]);
      assert (" " + patterns[0]) + (", " + JoinTexts(patterns[1..]))
        == " " + (patterns[0] + ", " + JoinTexts(patterns[1..]));
    }
  }

  lemma {:induction false} JoinText(bits: seq<Bit>, src: string, patterns: seq<string>)
    requires bits == [Glued(JOIN)] + SubjectBits(src) + ArgBits(StringShapes(patterns))
    ensures Node(Print(bits), JoinNode(src, Escapes(patterns))) == NodeOf(Join(src, patterns))
  {
    hide Word, Print, ArgBits, Escapes;
    assert bits == Bits(Join(src, patterns));
  }

  function DelimiterBits(delimiter: Option<string>): seq<Bit> {
    if delimiter.None? then [] else [Spc(WITH), Bit(true, Shape(STRING, delimiter.value))]
  }

  lemma {:induction false} DelimiterBitsBehind(bits: seq<Bit>, s: string)
    ensures bits + [Spc(WITH)] + [Bit(true, Shape(STRING, s))] == bits + DelimiterBits(Some(s))
    ensures bits + DelimiterBits(None) == bits
  {
  }

  function FieldBit(id: string, num: string, first: bool): seq<Bit> {
    [Bit(!first, Shape(IDENTIFIER, id)), Spc(EQ), Bit(true, Shape(INT, num))]
  }

  lemma {:induction false} FieldBitBehind(bits: seq<Bit>, id: string, num: string, first: bool)
    ensures bits + [Bit(!first, Shape(IDENTIFIER, id))] + [Spc(EQ)] + [Bit(true, Shape(INT, num))]
         == bits + FieldBit(id, num, first)
  {
  }

  function ModeBits(mode: Option<string>): seq<Bit> {
    if mode.None? then [Spc(TO)] else [Spc(ASYNC), Spc(AS), Id(mode.value), Spc(TO)]
  }

  lemma {:induction false} ModeBitsBehind(bits: seq<Bit>, id: string)
    ensures bits + [Spc(ASYNC)] + [Spc(AS)] + [Id(id)] + [Spc(TO)] == bits + ModeBits(Some(id))
    ensures bits + [Spc(TO)] == bits + ModeBits(None)
  {
  }

  function PairBits(x: string, y: string): seq<Bit> { [Id(x), Spc(AND), Id(y)] }

  lemma {:induction false} PairBitsBehind(bits: seq<Bit>, x: string, y: string)
    ensures bits + [Id(x)] + [Spc(AND)] + [Id(y)] == bits + PairBits(x, y)
  {
  }

  function TargetBits(target: string): seq<Bit> { [Spc(TO), Id(target)] }

  lemma {:induction false} TargetBitsBehind(bits: seq<Bit>, target: string)
    ensures bits + [Spc(TO)] + [Id(target)] == bits + TargetBits(target)
  {
  }

  function SubjectBits(src: string): seq<Bit> { [Id(src), Spc(WITH)] }

  lemma {:induction false} SubjectBitsBehind(bits: seq<Bit>, src: string)
    ensures bits + [Id(src)] + [Spc(WITH)] == bits + SubjectBits(src)
  {
  }

  function SplitBits(src: string, x: string, y: string): seq<Bit> {
    [Id(src), Spc(AS), Id(x), Spc(AND), Id(y)]
  }

  lemma {:induction false} SplitBitsBehind(bits: seq<Bit>, src: string, x: string, y: string)
    ensures bits + [Id(src)] + [Spc(AS)] + PairBits(x, y) == bits + SplitBits(src, x, y)
  {
  }

  lemma {:induction false} SinkText(bits: seq<Bit>, src: string, mode: Option<string>, q: string, c: string,
                                    args: Input)
    requires bits == [Glued(SINK)] + [Id(src)] + ModeBits(mode) + ClassBits(q, c) + ArgBits(args)
    ensures
      var id := if mode.Some? then mode.value else "";
      var s := if mode.Some? then AsyncSink(src, mode.value, q, c, args) else Sink(src, q, c, args);
      Node(Print(bits), SinkNode(src, mode.Some?, false, id, q, c, ArgsOf(args))) == NodeOf(s)
  {
    hide Word, ClassBits, ArgBits, Print;
    var s := if mode.Some? then AsyncSink(src, mode.value, q, c, args) else Sink(src, q, c, args);
    assert bits == Bits(s);
  }

  lemma {:induction false} MergeText(bits: seq<Bit>, x: string, y: string, id: string)
    requires bits == [Glued(MERGE)] + PairBits(x, y) + [Spc(AS)] + [Id(id)]
    ensures Node(Print(bits), MergeNode(x, y, id)) == NodeOf(Merge(x, y, id))
  {
    hide Word, Print;
    assert bits == Bits(Merge(x, y, id));
  }

  lemma {:induction false} SplitText(bits: seq<Bit>, typ: TokenType, src: string, x: string, y: string)
    requires bits == [Glued(typ)] + SplitBits(src, x, y)
    ensures typ == DUPE ==> Node(Print(bits), DupeNode(src, x, y)) == NodeOf(Dupe(src, x, y))
    ensures typ == FANOUT ==> Node(Print(bits), FanoutNode(src, x, y)) == NodeOf(Fanout(src, x, y))
  {
  }

  lemma {:induction false} AppendText(bits: seq<Bit>, src: string, target: string)
    requires bits == [Glued(APPEND)] + [Id(src)] + TargetBits(target)
    ensures Node(Print(bits), AppendNode(src, target)) == NodeOf(Append(src, target))
  {
    hide Word, Print;
    assert bits == Bits(Append(src, target));
  }

  lemma {:induction false} TagText(bits: seq<Bit>, src: string, tag: string)
    requires bits == [Glued(TAG)] + SubjectBits(src) + [Bit(true, Shape(STRING, tag))]
    ensures Node(Print(bits), TagNode(src, Escape(tag))) == NodeOf(Tag(src, tag))
  {
    hide Word, Print, Escape;
    assert bits == Bits(Tag(src, tag));
  }

  lemma {:induction false} SourceText(bits: seq<Bit>, id: string, q: string, c: string, args: Input)
    requires bits == [Glued(SOURCE)] + [Spc(AS)] + [Id(id)] + ClassBits(q, c) + ArgBits(args)
    ensures Node(Print(bits), SourceNode(id, q, c, ArgsOf(args))) == NodeOf(Source(id, q, c, args))
  {
    hide Word, ClassBits, ArgBits, Print;
    assert bits == Bits(Source(id, q, c, args));
  }

  /** What is read behind some field settings; more says that there are any. */
  ghost function FieldsBehind(xs: Input, sc: Scope, more: bool): Parse<seq<(string, string)>> {
    if !more then ReadFields(xs, sc)
    else if Head(xs).typ == RPAR then Ok([], Tail(xs), sc)
    else if Head(xs).typ != COMMA then No(Unexpected)
    else ReadFields(Tail(xs), sc)
  }

  lemma {:induction false} FieldsStart(bits: seq<Bit>, r: Parse<seq<(string, string)>>)
    ensures Prefixed([], r) == r && bits + FieldBits([], true) == bits && FieldSets([]) == map[]
  {
    PrefixedLaws([], ("", ""), r);
  }

  lemma {:induction false} FieldsStep(xs: Input, sc: Scope, more: bool)
    ensures
      var r := FieldsBehind(xs, sc, more);
      var ys := if more then Tail(xs) else xs;
      var f := ReadField(ys, sc);
      if more && Head(xs).typ == RPAR then r == Ok([], Tail(xs), sc)
      else if more && Head(xs).typ != COMMA then r == No(Unexpected)
      else if Head(ys).typ == RPAR then r == No(Unexpected)
      else if f.No? then r == No(f.err)
      else |f.rest| < |xs| && r == Prefixed([f.value], FieldsBehind(f.rest, sc, true))
  {
    hide IntOk;
    var ys := if more then Tail(xs) else xs;
    var f := ReadField(ys, sc);
    if f.Ok? {
      assert [f.value] + [] == [f.value];
    }
  }

  lemma {:induction false} FieldBitsAppend(fields: seq<(string, string)>, f: (string, string), first: bool)
    ensures FieldBits(fields + [f], first)
      == FieldBits(fields, first)
         + (if first && fields == [] then [] else [Glued(COMMA)])
         + FieldBit(f.0, f.1, first && fields == [])
  {
    hide Word;
    if fields == [] {
      assert [] + [f] == [f];
    } else {
      FieldBitsAppend(fields[1..], f, false);
      assert (fields + [f])[1..] == fields[1..] + [f];
    }
  }

  lemma {:induction false} FieldsAppend(bits: seq<Bit>, fields: seq<(string, string)>, f: (string, string))
    ensures
      var comma := if fields == [] then [] else [Glued(COMMA)];
      bits + FieldBits(fields + [f], true) == bits + FieldBits(fields, true) + comma + FieldBit(f.0, f.1, fields == [])
    ensures FieldSets(fields + [f]) == FieldSets(fields)[f.0 := IntValue(f.1)]
  {
    hide FieldBits, Word;
    FieldBitsAppend(fields, f, true);
    assert (fields + [f])[..|fields|] == fields;
  }

  lemma {:induction false} CutText(bits: seq<Bit>, delimiter: Option<string>, src: string,
                                   fields: seq<(string, string)>)
    requires bits == [Glued(CUT)] + DelimiterBits(delimiter) + [Id(src)] + [Spc(SET)] + [Spc(LPAR)]
                     + FieldBits(fields, true) + [Glued(RPAR)]
    ensures
      Node(Print(bits), CutNode(if delimiter.None? then " " else Escape(delimiter.value), src, FieldSets(fields)))
      == NodeOf(Cut(delimiter, src, fields))
  {
    hide Word, Print, FieldBits, Escape, FieldSets;
    assert bits == Bits(Cut(delimiter, src, fields));
  }

  lemma {:induction false} NodesAppend(stmts: seq<Stmt>, s: Stmt)
    ensures Nodes(stmts + [s]) == Nodes(stmts) + [NodeOf(s)]
  {
    hide NodeOf;
    if stmts == [] {
      assert [] + [s] == [s];
    } else {
      NodesAppend(stmts[1..], s);
      assert (stmts + [s])[1..] == stmts[1..] + [s];
    }
  }

  lemma {:induction false} EolNodeOf(str: TokenStream)
    requires Fit(str) && Head(str.Ahead()).typ == EOL
    ensures NodeOf(Blank) == Node(Head(str.Ahead()).text, EolNode)
  {
    hide TokenStream.Ahead;
    PrintOne(Glued(EOL));
    assert Spelled(str.Ahead()[0]);
  }

  /** What is read behind the statements that have been read already. */
  ghost function Behind(stmts: seq<Stmt>, r: Script): Script {
    if r.Done? then Done(stmts + r.stmts, r.scope) else r
  }

  lemma {:induction false} BehindNothing(r: Script)
    ensures Behind([], r) == r
  {
  }

  lemma {:induction false} ScriptStep(xs: Input, sc: Scope, eng: Engine, stmts: seq<Stmt>)
    ensures
      var r := Behind(stmts, ReadScript(xs, sc, eng));
      var s := ReadStmt(xs, sc, eng);
      if Head(xs).typ == EOF then r == Done(stmts, sc)
      else if Head(xs).typ == ERR then r == Broken(LexFailure(Head(xs).text))
      else if s.No? then r == Broken(s.err)
      else |s.rest| < |xs| && r == Behind(stmts + [s.value], ReadScript(s.rest, s.scope, eng))
  {
    hide ReadStmt;
    var s := ReadStmt(xs, sc, eng);
    assert stmts + [] == stmts;
    if s.Ok? && ReadScript(s.rest, s.scope, eng).Done? {
      var more := ReadScript(s.rest, s.scope, eng).stmts;
      assert stmts + ([s.value] + more) == stmts + [s.value] + more;
    }
  }

  lemma {:induction false} NodeText(a: Ast)
    requires a.Valid()
    ensures a.text == Print(a.bits)
  {
  }

  lemma {:induction false} NoArgBits(bits: seq<Bit>)
    ensures bits + ArgBits([]) == bits
  {
  }

  lemma {:induction false} CommaText()
    ensures Print([Glued(COMMA)]) == ","
  {
  }

  lemma {:induction false} ArgText(xs: Input, i: nat)
    requires i < |xs|
    ensures ArgsOf(xs)[i].text == xs[i].text && Print([Bit(true, xs[i])]) == " " + xs[i].text
  {
    PrintOne(Bit(true, xs[i]));
    ArgsOfAt(xs, i);
  }

  lemma {:induction false} ArgsOfAt(xs: Input, i: nat)
    requires i < |xs|
    ensures ArgsOf(xs)[i] == ArgOf(xs[i])
  {
    if 0 < i {
      ArgsOfAt(xs[1..], i - 1);
    }
  }

  lemma {:induction false} MoreArgBitsAppend(xs: Input, x: Shape)
    ensures MoreArgBits(xs + [x]) == MoreArgBits(xs) + [Glued(COMMA), Bit(true, x)]
  {
    hide Word;
    if xs == [] {
      assert [] + [x] == [x];
    } else {
      MoreArgBitsAppend(xs[1..], x);
      assert (xs + [x])[1..] == xs[1..] + [x];
    }
  }

  lemma {:induction false} ArgBitsAppend(xs: Input, i: nat)
    requires i < |xs|
    ensures ArgBits(xs[..i + 1])
         == ArgBits(xs[..i]) + (if 0 < i then [Glued(COMMA)] else []) + [Bit(true, xs[i])]
  {
    hide Word, ArgBits, MoreArgBits;
    ArgBitsParts(xs[..i]);
    ArgBitsParts(xs[..i + 1]);
    if i == 0 {
      assert xs[..1][1..] == [];
      NoMoreArgs();
    } else {
      MoreArgBitsAppend(xs[1..i], xs[i]);
      assert xs[..i + 1][1..] == xs[1..i] + [xs[i]] && xs[..i][1..] == xs[1..i];
    }
  }

  lemma {:induction false} ArgBitsParts(xs: Input)
    ensures ArgBits(xs) == if xs == [] then [] else [Bit(true, xs[0])] + MoreArgBits(xs[1..])
  {
  }

  lemma {:induction false} NoMoreArgs()
    ensures MoreArgBits([]) == []
  {
  }

  lemma {:induction false} FitIsReady(str: TokenStream)
    requires Fit(str)
    ensures Ready(str.Ahead())
  {
  }

  /** What is read behind the arguments that have been read already. */
  ghost function Prefixed<T>(done: seq<T>, r: Parse<seq<T>>): Parse<seq<T>> {
    if r.Ok? then Ok(done + r.value, r.rest, r.scope) else r
  }

  lemma {:induction false} PrefixedLaws<T>(done: seq<T>, x: T, r: Parse<seq<T>>)
    ensures Prefixed([], r) == r
    ensures r.No? ==> Prefixed(done, r) == r
    ensures Prefixed(done, Prefixed([x], r)) == Prefixed(done + [x], r)
    ensures r.Ok? && r.value == [] ==> Prefixed(done, r) == Ok(done, r.rest, r.scope)
  {
    if r.Ok? {
      assert [] + r.value == r.value;
      assert done + ([x] + r.value) == done + [x] + r.value;
      assert done + [] == done;
    }
  }

  lemma {:induction false} ArgsStep(xs: Input, sc: Scope, eng: Engine, more: bool)
    ensures
      var r := ReadArgs(xs, sc, eng, more);
      var ys := if more then Tail(xs) else xs;
      if more && Head(xs).typ != COMMA then r == Ok([], xs, sc)
      else if !IsArg(Head(ys).typ) then r == Ok([], ys, sc)
      else
        var fault := ArgFault(Head(ys), sc, eng);
        && |Tail(ys)| < |xs|
        && (fault.Some? ==> r == No(fault.value))
        && (fault.None? ==> r == Prefixed([Head(ys)], ReadArgs(Tail(ys), sc, eng, true)))
  {
  }

  lemma {:induction false} ArgsOfAppend(xs: seq<Shape>, x: Shape)
    ensures ArgsOf(xs + [x]) == ArgsOf(xs) + [ArgOf(x)]
  {
    if xs == [] {
      assert [] + [x] == [x];
    } else {
      ArgsOfAppend(xs[1..], x);
      assert (xs + [x])[1..] == xs[1..] + [x];
    }
  }

  lemma {:induction false} ReversedTwo(a: Token, b: Token, rest: seq<Token>)
    ensures Reversed([a, b]) + rest == [b] + ([a] + rest)
  {
  }

  lemma {:induction false} ReversedThree(a: Token, b: Token, c: Token, rest: seq<Token>)
    ensures Reversed([a, b, c]) + rest == [c] + ([b] + ([a] + rest))
  {
    assert [a, b, c][..2] == [a, b];
    ReversedTwo(a, b, rest);
  }

  /** Gives back the tokens that were read last; an error that came up stays. */
  method GiveBack(str: TokenStream, tokens: seq<Token>, ghost ts: seq<Token>)
    requires str.Valid() && str.most <= SLOTS && str.idx + |tokens| <= SLOTS
    requires str.err.None? ==> NoErrors(tokens) && ts == Reversed(tokens) + str.Content()
    modifies str, str.buf
    ensures Usable(str, SLOTS) && str.err == old(str.err)
    ensures str.err.None? ==> str.Content() == ts
  {
    hide Reversed;
    str.PushBack(tokens);
  }

  lemma {:induction false} ClassSteps(xs: Input, sc: Scope)
    ensures
      if Head(xs).typ != IDENTIFIER || Head(Tail(xs)).typ != DOT || Head(Tail(Tail(xs))).typ != IDENTIFIER then
        ReadClass(xs, sc) == No(Unexpected)
      else
        ReadClass(xs, sc) == Ok((Head(xs).text, Head(Tail(Tail(xs))).text), Tail(Tail(Tail(xs))), sc)
  {
  }

  lemma {:induction false} ClassText(qualifier: string, class_: string)
    ensures Print(ClassBits(qualifier, class_)) == " " + (qualifier + Word(DOT) + class_)
  {
    hide Word;
    var bits := ClassBits(qualifier, class_);
    PrintOne(bits[0]);
    PrintOne(bits[1]);
    PrintOne(bits[2]);
    PrintConcat([bits[0]], [bits[1]]);
    PrintConcat([bits[0]] + [bits[1]], [bits[2]]);
    assert bits == [bits[0]] + [bits[1]] + [bits[2]];
  }
}
