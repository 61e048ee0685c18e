/** What a script means: the entries that each of its iterators yields, and those that each sink is given. */
module Meaning {
  import opened Options
  import opened Iterators
  import C = Concat
  import opened Shuffles
  import opened Tokens
  import opened Syntax
  import opened RuntimeSpec
  import opened Dataflow

  /** What a run does not decide: the entries that a source gives, those that a combinator makes of what it
      is given, and which of its outputs they go to. The first argument of the first four is the number of
      the call, as two of the same kind need not do the same. */
  datatype World = World(
    source: (nat, string, string, seq<Arg>) -> seq<Entry>,
    mix: (nat, seq<Entry>, seq<Entry>) -> seq<Entry>,
    dupe: (nat, nat, seq<Entry>) -> seq<Entry>,
    fanout: (nat, nat, seq<Entry>) -> seq<Entry>,
    cut: (string, map<string, int>, seq<Entry>) -> seq<Entry>,
    tag: (string, seq<Entry>) -> seq<Entry>,
    join: (seq<string>, seq<Entry>) -> seq<Entry>)

  /** One stream behind another; behind itself, a stream gives its entries once. */
  function Chain(same: bool, xs: seq<Entry>, ys: seq<Entry>): seq<Entry> {
    if same then xs else xs + ys
  }

  // ----- What the calls of a run yield ---------------------------------------------------------

  /** The entries of an iterator, from the call that returned it and the calls before that one. */
  function Yields(calls: seq<Call>, x: Iter, w: World): seq<Entry>
    decreases |calls|
  {
    if x.Nil? || |calls| <= x.call then []
    else
      var n, port, before := x.call, x.port, calls[..x.call];
      match calls[n]
      case SourceCall(q, c, args) => w.source(n, q, c, args)
      case SinkCall(_, _, _, _) => []
      case MergeCall(a, b) => w.mix(n, Yields(before, a, w), Yields(before, b, w))
      case DupeCall(y) => w.dupe(n, port, Yields(before, y, w))
      case ConcatCall(base, next) => Chain(base == next, Yields(before, base, w), Yields(before, next, w))
      case CutCall(y, delimiter, sets) => w.cut(delimiter, sets, Yields(before, y, w))
      case FanoutCall(y) => w.fanout(n, port, Yields(before, y, w))
      case TagCall(y, tag) => w.tag(tag, Yields(before, y, w))
      case JoinCall(y, patterns) => w.join(patterns, Yields(before, y, w))
  }

  /** A sink that was opened, with its class, its arguments and the entries that it is given. */
  datatype Delivery = Delivery(qualifier: string, class_: string, args: seq<Arg>, entries: seq<Entry>)

  /** All that sinks are given, in the order in which they were opened. */
  function Deliveries(calls: seq<Call>, w: World): seq<Delivery> {
    if calls == [] then []
    else
      var front, last := calls[..|calls| - 1], calls[|calls| - 1];
      Deliveries(front, w)
      + if last.SinkCall? then [Delivery(last.qualifier, last.class_, last.args, Yields(front, last.x, w))] else []
  }

  /** Later calls do not change what earlier ones yield. */
  lemma {:induction false} YieldsStays(calls: seq<Call>, c: Call, x: Iter, w: World)
    requires MadeBefore(x, |calls|)
    ensures Yields(calls + [c], x, w) == Yields(calls, x, w)
  {
    assert (calls + [c])[x.call] == calls[x.call] && (calls + [c])[..x.call] == calls[..x.call];
  }

  lemma {:induction false} DeliveriesMore(calls: seq<Call>, c: Call, w: World)
    ensures Deliveries(calls + [c], w) == Deliveries(calls, w)
      + if c.SinkCall? then [Delivery(c.qualifier, c.class_, c.args, Yields(calls, c.x, w))] else []
  {
    assert (calls + [c])[..|calls|] == calls;
  }

  // ----- What the statements say ---------------------------------------------------------------

  /** The streams that have a name and are not given away yet, the deliveries so far, and how many
      statements were executed that are not blank. */
  datatype Flow = Flow(of: map<string, seq<Entry>>, sunk: seq<Delivery>, made: nat)

  const NO_FLOW := Flow(map[], [], 0)

  function At(m: Flow, id: string): seq<Entry> {
    if id in m.of then m.of[id] else []
  }

  /** What one statement means, told from the text alone. */
  function Means(s: Stmt, m: Flow, w: World): Flow {
    var n := m.made;
    match s
    case Blank => m
    case Source(id, q, c, args) => m.(of := m.of[id := w.source(n, q, c, ArgsOf(args))], made := n + 1)
    case Sink(src, q, c, args) => Sunk(m, src, q, c, args)
    case AsyncSink(src, _, q, c, args) => Sunk(m, src, q, c, args)
    case Merge(a, b, id) => m.(of := (m.of - {a, b})[id := w.mix(n, At(m, a), At(m, b))], made := n + 1)
    case Dupe(src, a, b) =>
      m.(of := (m.of - {src})[a := w.dupe(n, 0, At(m, src))][b := w.dupe(n, 1, At(m, src))], made := n + 1)
    case Fanout(src, a, b) =>
      m.(of := (m.of - {src})[a := w.fanout(n, 0, At(m, src))][b := w.fanout(n, 1, At(m, src))], made := n + 1)
    case Append(src, target) =>
      m.(of := m.of[target := Chain(src == target, At(m, target), At(m, src))] - {src}, made := n + 1)
    case Cut(delimiter, src, fields) =>
      var d := if delimiter.None? then " " else Escape(delimiter.value);
      m.(of := m.of[src := w.cut(d, FieldSets(fields), At(m, src))], made := n + 1)
    case Tag(src, tag) => m.(of := m.of[src := w.tag(Escape(tag), At(m, src))], made := n + 1)
    case Join(src, patterns) => m.(of := m.of[src := w.join(Escapes(patterns), At(m, src))], made := n + 1)
  }

  function Sunk(m: Flow, src: string, q: string, c: string, args: seq<Shape>): Flow {
    m.(of := m.of - {src}, sunk := m.sunk + [Delivery(q, c, ArgsOf(args), At(m, src))], made := m.made + 1)
  }

  function MeansAll(stmts: seq<Stmt>, m: Flow, w: World): Flow {
    if stmts == [] then m else MeansAll(stmts[1..], Means(stmts[0], m, w), w)
  }

  // ----- The runtime does what the statements say ----------------------------------------------

  /** All iterators in the table are different, and come from calls that were made. */
  ghost predicate AllMade(t: Table) {
    && (forall i :: 0 <= i < |t.sources| ==> MadeBefore(t.sources[i], |t.calls|))
    && forall i, j :: 0 <= i < j < |t.sources| ==> t.sources[i] != t.sources[j]
  }

  /** An identifier with an iterator of its own that nothing has taken yet. */
  ghost predicate IsLive(t: Table, id: string)
    requires Sound(t)
  {
    id in t.ids && !t.consumed[t.ids[id]]
  }

  ghost predicate Named(t: Table, of: map<string, seq<Entry>>)
    requires Sound(t)
  {
    forall id :: id in of <==> IsLive(t, id)
  }

  ghost predicate Yielding(t: Table, of: map<string, seq<Entry>>, w: World)
    requires Sound(t)
  {
    forall id :: id in of && id in t.ids ==> Yields(t.calls, Get(t, id), w) == of[id]
  }

  /** The identifiers that are live yield what is said, and the sinks have been given what is said. */
  ghost predicate Does(t: Table, m: Flow, w: World)
    requires Sound(t)
  {
    && AllMade(t) && |t.calls| == m.made && Deliveries(t.calls, w) == m.sunk
    && Named(t, m.of) && Yielding(t, m.of, w)
  }

  /** A call leaves the table alone. */
  lemma {:induction false} MadeDoes(t: Table, m: Flow, w: World, c: Call)
    requires Sound(t) && Does(t, m, w)
    ensures
      var sunk := if c.SinkCall? then [Delivery(c.qualifier, c.class_, c.args, Yields(t.calls, c.x, w))] else [];
      Does(Made(t, false, c), m.(sunk := m.sunk + sunk, made := m.made + 1), w)
    ensures !c.SinkCall? ==> Does(Made(t, false, c), m.(made := m.made + 1), w)
  {
    hide Yields, Deliveries;
    DeliveriesMore(t.calls, c, w);
    var u := Made(t, false, c);
    assert Named(u, m.of) && AllMade(u);
    forall id | id in m.of && id in u.ids
      ensures Yields(u.calls, Get(u, id), w) == m.of[id]
    {
      YieldsStays(t.calls, c, Get(t, id), w);
    }
  }

  /** What is marked is no longer live. */
  lemma {:induction false} MarkDoes(t: Table, m: Flow, w: World, id: string)
    requires Sound(t) && Does(t, m, w) && id in t.ids
    ensures Does(Mark(t, id), m.(of := m.of - {id}), w)
  {
    hide Yields, Deliveries;
    var u, of := Mark(t, id), m.of - {id};
    assert AllMade(u);
    forall other
      ensures other in of <==> IsLive(u, other)
    {
      MarkedLive(t, id, other);
      assert other in m.of <==> IsLive(t, other);
    }
    assert Yielding(u, of, w);
  }

  lemma {:induction false} MarkedLive(t: Table, id: string, other: string)
    requires Sound(t) && id in t.ids
    ensures IsLive(Mark(t, id), other) <==> other != id && IsLive(t, other)
  {
  }

  lemma {:induction false} AddedLive(t: Table, id: string, x: Iter, other: string)
    requires Sound(t)
    ensures IsLive(Add(t, id, x), other) <==> other == id || IsLive(t, other)
    ensures Get(Add(t, id, x), id) == x
    ensures other != id && other in t.ids ==> Get(Add(t, id, x), other) == Get(t, other)
  {
  }

  lemma {:induction false} MoreMade(t: Table, id: string, x: Iter)
    requires Sound(t) && AllMade(t) && MadeBefore(x, |t.calls|) && x !in t.sources
    ensures AllMade(Add(t, id, x)) && (id in t.ids ==> AllMade(Replace(t, id, x)))
  {
  }

  lemma {:induction false} AddDoes(t: Table, m: Flow, w: World, id: string, x: Iter)
    requires Sound(t) && Does(t, m, w) && MadeBefore(x, |t.calls|) && x !in t.sources
    ensures Does(Add(t, id, x), m.(of := m.of[id := Yields(t.calls, x, w)]), w)
  {
    hide Yields, Deliveries, Sound, AllMade, MadeBefore, IsLive, Get;
    MoreMade(t, id, x);
    var u, of := Add(t, id, x), m.of[id := Yields(t.calls, x, w)];
    forall other
      ensures other in of <==> IsLive(u, other)
      ensures other in of && other in u.ids ==> Yields(u.calls, Get(u, other), w) == of[other]
    {
      AddedLive(t, id, x, other);
      assert other in m.of <==> IsLive(t, other);
    }
  }

  lemma {:induction false} ReplacedLive(t: Table, id: string, x: Iter, other: string)
    requires Sound(t) && id in t.ids
    ensures IsLive(Replace(t, id, x), other) <==> IsLive(t, other)
    ensures Get(Replace(t, id, x), id) == x
    ensures other != id && other in t.ids ==> Get(Replace(t, id, x), other) == Get(t, other)
  {
  }

  lemma {:induction false} ReplaceDoes(t: Table, m: Flow, w: World, id: string, x: Iter)
    requires Sound(t) && Does(t, m, w) && MadeBefore(x, |t.calls|) && x !in t.sources && id in t.ids
    ensures Does(Replace(t, id, x), if id in m.of then m.(of := m.of[id := Yields(t.calls, x, w)]) else m, w)
  {
    hide Yields, Deliveries, Sound, AllMade, MadeBefore, IsLive, Get;
    MoreMade(t, id, x);
    var u, of := Replace(t, id, x), if id in m.of then m.of[id := Yields(t.calls, x, w)] else m.of;
    forall other
      ensures other in of <==> IsLive(u, other)
      ensures other in of && other in u.ids ==> Yields(u.calls, Get(u, other), w) == of[other]
    {
      ReplacedLive(t, id, x, other);
      assert other in m.of <==> IsLive(t, other);
    }
  }

  /** What a live identifier hands over is what it is said to yield. */
  lemma {:induction false} LiveYields(t: Table, m: Flow, w: World, id: string, c: Call)
    requires Sound(t) && Does(t, m, w) && OldFault(t, id).None?
    ensures IsLive(t, id) && id in m.of && GetOrNil(t, id) == Get(t, id) && MadeBefore(Get(t, id), |t.calls|)
    ensures Yields(t.calls + [c], Get(t, id), w) == Yields(t.calls, Get(t, id), w) == At(m, id)
  {
    hide Yields, Deliveries, EmptyId;
    YieldsStays(t.calls, c, Get(t, id), w);
  }

  /** The results of a call are new; its inputs come from the calls before it. */
  lemma {:induction false} ResultIsNew(t: Table, m: Flow, w: World, c: Call, port: nat)
    requires Sound(t) && Does(t, m, w)
    ensures |t.calls| == m.made && Out(|t.calls|, port) !in t.sources && MadeBefore(Out(|t.calls|, port), |t.calls| + 1)
    ensures (t.calls + [c])[|t.calls|] == c && (t.calls + [c])[..|t.calls|] == t.calls
  {
    hide Yields, Deliveries;
  }

  lemma {:induction false} SourceMeans(t: Table, m: Flow, w: World, id: string, q: string, c: string,
                                       args: seq<Arg>, known: bool, fails: bool)
    requires Sound(t) && Does(t, m, w) && SourceStep(t, id, known, false, fails, SourceCall(q, c, args)).err.None?
    ensures Does(SourceStep(t, id, known, false, fails, SourceCall(q, c, args)).table,
                 m.(of := m.of[id := w.source(m.made, q, c, args)], made := m.made + 1), w)
  {
    hide Does, Deliveries, Sound, Add, NewFault;
    var call := SourceCall(q, c, args);
    MadeDoes(t, m, w, call);
    ResultIsNew(t, m, w, call, 0);
    AddDoes(Made(t, false, call), m.(made := m.made + 1), w, id, Result(t, false, 0));
  }

  lemma {:induction false} SinkMeans(t: Table, m: Flow, w: World, src: string, q: string, c: string,
                                     args: seq<Arg>, known: bool, fails: bool)
    requires Sound(t) && Does(t, m, w)
    requires SinkStep(t, src, known, false, fails, SinkCall(GetOrNil(t, src), q, c, args)).err.None?
    ensures
      var delivery := Delivery(q, c, args, At(m, src));
      Does(SinkStep(t, src, known, false, fails, SinkCall(GetOrNil(t, src), q, c, args)).table,
           Flow(m.of - {src}, m.sunk + [delivery], m.made + 1), w)
  {
    hide Does, Deliveries, Yields, Sound, OldFault, At;
    var call := SinkCall(GetOrNil(t, src), q, c, args);
    LiveYields(t, m, w, src, call);
    MarkDoes(t, m, w, src);
    MadeDoes(Mark(t, src), m.(of := m.of - {src}), w, call);
  }

  lemma {:induction false} MergeMeans(t: Table, m: Flow, w: World, a: string, b: string, id: string)
    requires Sound(t) && Does(t, m, w) && MergeStep(t, a, b, id, false).err.None?
    ensures Does(MergeStep(t, a, b, id, false).table, Means(Merge(a, b, id), m, w), w)
  {
    hide Does, Deliveries, Sound, OldFault, NewFault, Add, At;
    var c := MergeCall(GetOrNil(t, a), GetOrNil(t, b));
    LiveYields(t, m, w, a, c);
    LiveYields(t, m, w, b, c);
    ResultIsNew(t, m, w, c, 0);
    MarkDoes(t, m, w, a);
    MarkDoes(Mark(t, a), m.(of := m.of - {a}), w, b);
    assert m.of - {a} - {b} == m.of - {a, b};
    var m2 := m.(of := m.of - {a, b});
    var t2 := Mark(Mark(t, a), b);
    MadeDoes(t2, m2, w, c);
    AddDoes(Made(t2, false, c), m2.(made := m.made + 1), w, id, Result(t, false, 0));
  }

  /** The two streams of a split. */
  lemma {:induction false} SplitMeans(t: Table, m: Flow, w: World, src: string, a: string, b: string, c: Call)
    requires Sound(t) && Does(t, m, w) && SplitStep(t, src, a, b, false, c).err.None? && !c.SinkCall?
    ensures
      var calls, n := t.calls + [c], |t.calls|;
      var of := (m.of - {src})[a := Yields(calls, Out(n, 0), w)][b := Yields(calls, Out(n, 1), w)];
      Does(SplitStep(t, src, a, b, false, c).table, m.(of := of, made := m.made + 1), w)
  {
    hide Does, Deliveries, Yields, Sound, OldFault, NewFault, At;
    LiveYields(t, m, w, src, c);
    ResultIsNew(t, m, w, c, 0);
    ResultIsNew(t, m, w, c, 1);
    MarkDoes(t, m, w, src);
    var m1 := m.(of := m.of - {src});
    MadeDoes(Mark(t, src), m1, w, c);
    var u, m2 := Made(Mark(t, src), false, c), m1.(made := m.made + 1);
    var x := Result(t, false, 0);
    AddDoes(u, m2, w, a, x);
    AddDoes(Add(u, a, x), m2.(of := m2.of[a := Yields(u.calls, x, w)]), w, b, Result(t, false, 1));
  }

  lemma {:induction false} DupeMeans(t: Table, m: Flow, w: World, src: string, a: string, b: string)
    requires Sound(t) && Does(t, m, w) && SplitStep(t, src, a, b, false, DupeCall(GetOrNil(t, src))).err.None?
    ensures Does(SplitStep(t, src, a, b, false, DupeCall(GetOrNil(t, src))).table, Means(Dupe(src, a, b), m, w), w)
  {
    hide Does, Deliveries, Sound, OldFault, NewFault, Add, At;
    var c := DupeCall(GetOrNil(t, src));
    LiveYields(t, m, w, src, c);
    ResultIsNew(t, m, w, c, 0);
    SplitMeans(t, m, w, src, a, b, c);
  }

  lemma {:induction false} FanoutMeans(t: Table, m: Flow, w: World, src: string, a: string, b: string)
    requires Sound(t) && Does(t, m, w) && SplitStep(t, src, a, b, false, FanoutCall(GetOrNil(t, src))).err.None?
    ensures Does(SplitStep(t, src, a, b, false, FanoutCall(GetOrNil(t, src))).table,
                 Means(Fanout(src, a, b), m, w), w)
  {
    hide Does, Deliveries, Sound, OldFault, NewFault, Add, At;
    var c := FanoutCall(GetOrNil(t, src));
    LiveYields(t, m, w, src, c);
    ResultIsNew(t, m, w, c, 0);
    SplitMeans(t, m, w, src, a, b, c);
  }

  /** Different identifiers have different iterators. */
  lemma {:induction false} SameIter(t: Table, m: Flow, w: World, id: string, other: string)
    requires Sound(t) && Does(t, m, w) && id in t.ids && other in t.ids
    ensures Get(t, id) == Get(t, other) <==> id == other
  {
    hide Yields, Deliveries, MadeBefore;
  }

  /** After an append, the target yields what it yielded before, and behind that what the source yielded. */
  lemma {:induction false} AppendMeans(t: Table, m: Flow, w: World, src: string, target: string)
    requires Sound(t) && Does(t, m, w) && AppendStep(t, src, target, false).err.None?
    ensures Does(AppendStep(t, src, target, false).table, Means(Append(src, target), m, w), w)
  {
    hide Does, Deliveries, Sound, OldFault, At;
    var c := ConcatCall(GetOrNil(t, target), GetOrNil(t, src));
    LiveYields(t, m, w, src, c);
    LiveYields(t, m, w, target, c);
    SameIter(t, m, w, target, src);
    ResultIsNew(t, m, w, c, 0);
    MarkDoes(t, m, w, src);
    var m1 := m.(of := m.of - {src});
    MadeDoes(Mark(t, src), m1, w, c);
    var m2 := m1.(made := m.made + 1);
    ReplaceDoes(Made(Mark(t, src), false, c), m2, w, target, Result(t, false, 0));
    var both := Chain(src == target, At(m, target), At(m, src));
    assert m.of[target := both] - {src} == if src == target then m1.of else m1.of[target := both];
  }

  /** Cut, tag and join put one stream in the place of another. */
  lemma {:induction false} WrapMeans(t: Table, m: Flow, w: World, src: string, c: Call)
    requires Sound(t) && Does(t, m, w) && WrapStep(t, src, false, c).err.None? && !c.SinkCall?
    ensures Does(WrapStep(t, src, false, c).table,
                 m.(of := m.of[src := Yields(t.calls + [c], Out(|t.calls|, 0), w)], made := m.made + 1), w)
  {
    hide Does, Deliveries, Yields, Sound, OldFault, At;
    LiveYields(t, m, w, src, c);
    ResultIsNew(t, m, w, c, 0);
    MadeDoes(t, m, w, c);
    ReplaceDoes(Made(t, false, c), m.(made := m.made + 1), w, src, Result(t, false, 0));
  }

  lemma {:induction false} CutMeans(t: Table, m: Flow, w: World, delimiter: Option<string>, src: string,
                                    fields: seq<(string, string)>)
    requires Sound(t) && Does(t, m, w)
    requires
      var f := FieldsOf(Cut(delimiter, src, fields));
      WrapStep(t, src, false, CutCall(GetOrNil(t, src), f.delimiter, f.fieldSets)).err.None?
    ensures
      var f := FieldsOf(Cut(delimiter, src, fields));
      Does(WrapStep(t, src, false, CutCall(GetOrNil(t, src), f.delimiter, f.fieldSets)).table,
           Means(Cut(delimiter, src, fields), m, w), w)
  {
    hide Does, Deliveries, Sound, OldFault, At, WrapStep, Escape, FieldSets;
    var f := FieldsOf(Cut(delimiter, src, fields));
    var c := CutCall(GetOrNil(t, src), f.delimiter, f.fieldSets);
    WrapIsLive(t, src, c);
    LiveYields(t, m, w, src, c);
    ResultIsNew(t, m, w, c, 0);
    WrapMeans(t, m, w, src, c);
  }

  lemma {:induction false} WrapIsLive(t: Table, src: string, c: Call)
    requires Sound(t) && WrapStep(t, src, false, c).err.None?
    ensures OldFault(t, src).None?
  {
  }

  lemma {:induction false} TagMeans(t: Table, m: Flow, w: World, src: string, tag: string)
    requires Sound(t) && Does(t, m, w)
    requires WrapStep(t, src, false, TagCall(GetOrNil(t, src), Escape(tag))).err.None?
    ensures Does(WrapStep(t, src, false, TagCall(GetOrNil(t, src), Escape(tag))).table, Means(Tag(src, tag), m, w), w)
  {
    hide Does, Deliveries, Sound, OldFault, At, WrapStep, Escape;
    var c := TagCall(GetOrNil(t, src), Escape(tag));
    WrapIsLive(t, src, c);
    LiveYields(t, m, w, src, c);
    ResultIsNew(t, m, w, c, 0);
    WrapMeans(t, m, w, src, c);
  }

  lemma {:induction false} JoinMeans(t: Table, m: Flow, w: World, src: string, patterns: seq<string>)
    requires Sound(t) && Does(t, m, w)
    requires WrapStep(t, src, false, JoinCall(GetOrNil(t, src), Escapes(patterns))).err.None?
    ensures Does(WrapStep(t, src, false, JoinCall(GetOrNil(t, src), Escapes(patterns))).table,
                 Means(Join(src, patterns), m, w), w)
  {
    hide Does, Deliveries, Sound, OldFault, At, WrapStep, Escapes;
    var c := JoinCall(GetOrNil(t, src), Escapes(patterns));
    WrapIsLive(t, src, c);
    LiveYields(t, m, w, src, c);
    ResultIsNew(t, m, w, c, 0);
    WrapMeans(t, m, w, src, c);
  }

  /** A node that does not fail does what its statement means. */
  lemma {:induction false} StepMeans(s: Stmt, t: Table, m: Flow, w: World, env: Env)
    requires Sound(t) && Does(t, m, w) && StepOf(t, FieldsOf(s), false, env).err.None?
    ensures Does(StepOf(t, FieldsOf(s), false, env).table, Means(s, m, w), w)
  {
    hide Does, Deliveries, Sound, Escape, Escapes, FieldSets, ArgsOf, At, Chain, WrapStep, SplitStep, MergeStep,
      AppendStep, SourceStep, SinkStep, GetOrNil;
    var n := |t.calls|;
    match s
    case Blank =>
    case Source(id, q, c, args) => SourceMeans(t, m, w, id, q, c, ArgsOf(args), env.knowsSource(q, c), env.fails(n));
    case Sink(src, q, c, args) => SinkMeans(t, m, w, src, q, c, ArgsOf(args), env.knowsSink(q, c), env.fails(n));
    case AsyncSink(src, id, q, c, args) =>
      SinkMeans(t, m, w, src, q, c, ArgsOf(args), env.knowsSink(q, c), env.fails(n));
    case Merge(a, b, id) => MergeMeans(t, m, w, a, b, id);
    case Dupe(src, a, b) => DupeMeans(t, m, w, src, a, b);
    case Append(src, target) => AppendMeans(t, m, w, src, target);
    case Cut(delimiter, src, fields) => CutMeans(t, m, w, delimiter, src, fields);
    case Fanout(src, a, b) => FanoutMeans(t, m, w, src, a, b);
    case Tag(src, tag) => TagMeans(t, m, w, src, tag);
    case Join(src, patterns) => JoinMeans(t, m, w, src, patterns);
  }

  /** Every statement that a run executes does what it means, whatever the plugins do and wherever the run
      ends: behind each of them, the identifiers that are live yield what the statements so far say, and the
      sinks were given what they say. */
  lemma {:induction false} RunMeans(stmts: seq<Stmt>, t: Table, m: Flow, w: World, env: Env, k: nat)
    requires Sound(t) && Does(t, m, w) && k <= RunOf(t, Nodes(stmts), false, env).done
    ensures
      var r := RunOf(t, Nodes(stmts[..k]), false, env);
      r.err.None? && Does(r.table, MeansAll(stmts[..k], m, w), w)
    decreases k
  {
    hide Sound, Does, StepOf, FieldsOf, Text, Means;
    if k == 0 {
      assert stmts[..0] == [];
    } else {
      StepMeans(stmts[0], t, m, w, env);
      assert Nodes(stmts)[1..] == Nodes(stmts[1..]);
      assert stmts[..k][1..] == stmts[1..][..k - 1];
      assert Nodes(stmts[..k])[1..] == Nodes(stmts[1..][..k - 1]);
      var s := StepOf(t, FieldsOf(stmts[0]), false, env);
      RunMeans(stmts[1..], s.table, Means(stmts[0], m, w), w, env, k - 1);
    }
  }

  lemma {:induction false} FreshDoes(w: World)
    ensures Sound(NO_TABLE) && Does(NO_TABLE, NO_FLOW, w)
  {
  }

  lemma {:induction false} DoesYield(t: Table, m: Flow, w: World, id: string)
    requires Sound(t) && Does(t, m, w) && id in m.of
    ensures id in t.ids && Yields(t.calls, Get(t, id), w) == m.of[id]
  {
    hide Yields, Deliveries;
    assert IsLive(t, id);
  }

  // ----- Concat gives what an append is said to yield ------------------------------------------

  lemma {:induction false} RestGives(xs: seq<nat>, from: int, more: nat)
    ensures C.Results(C.Rest(C.Numbered(xs, from)), |xs| + more) == C.Numbered(xs, from) + C.Ends(more)
    ensures C.Error(AtEnd) !in C.Numbered(xs, from)
    decreases |xs| + more
  {
    var s := C.Rest(C.Numbered(xs, from));
    if xs != [] {
      RestGives(xs[1..], from + 1, more);
      assert C.Call(s) == (C.Entry(xs[0], from), C.Rest(C.Numbered(xs[1..], from + 1)));
    } else if 0 < more {
      RestGives(xs, from, more - 1);
      assert C.Call(s) == (C.Error(AtEnd), s);
    }
  }

  /** The iterator that Concat makes of two that number their entries from zero, or of one and itself,
      gives the entries of their chain, numbered from zero, and then the end for ever. */
  lemma {:induction false} ConcatChains(same: bool, xs: seq<nat>, ys: seq<nat>, more: nat)
    ensures
      var x, y := C.Rest(C.Numbered(xs, 0)), C.Rest(C.Numbered(ys, 0));
      var all := Chain(same, xs, ys);
      C.Results(if same then C.Again(x, 0) else C.Cat(x, y, 0), |all| + more) == C.Numbered(all, 0) + C.Ends(more)
  {
    hide C.Results, C.Call, C.Numbered, C.Ends;
    if same {
      RestGives(xs, 0, more);
      C.AgainGivesOnce(C.Numbered(xs, 0), 0, |xs| + more);
    } else {
      C.Contiguous(xs, ys, more);
      assert |xs + ys| + more == |xs| + |ys| + more;
    }
  }
}
