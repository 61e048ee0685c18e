/** What executing nodes does to the runtime's identifier table, as functions. */
module RuntimeSpec {
  import opened Options
  import opened Runes
  import opened Syntax

  /** An iterator is known by the call that returned it and its place among that call's results. */
  datatype Iter = Nil | Out(call: nat, port: nat)

  /** The calls that the runtime makes, each with the iterators that it hands over. */
  datatype Call =
    | SourceCall(qualifier: string, class_: string, args: seq<Arg>)
    | SinkCall(x: Iter, qualifier: string, class_: string, args: seq<Arg>)
    | MergeCall(a: Iter, b: Iter)
    | DupeCall(x: Iter)
    | ConcatCall(base: Iter, next: Iter)
    | CutCall(x: Iter, delimiter: string, fieldSets: map<string, int>)
    | FanoutCall(x: Iter)
    | TagCall(x: Iter, tag: string)
    | JoinCall(x: Iter, patterns: seq<string>)

  datatype Table = Table(ids: map<string, nat>, sources: seq<Iter>, consumed: seq<bool>, calls: seq<Call>)

  const NO_TABLE := Table(map[], [], [], [])

  /** Every identifier has a slot of its own. */
  ghost predicate Sound(t: Table) {
    && |t.consumed| == |t.sources|
    && (forall id :: id in t.ids ==> t.ids[id] < |t.sources|)
    && (forall id, other :: id in t.ids && other in t.ids && t.ids[id] == t.ids[other] ==> id == other)
  }

  /** What the runtime cannot know beforehand: which classes plugins have registered, and which calls
      of a source or a sink fail. */
  datatype Env = Env(knowsSource: (string, string) -> bool, knowsSink: (string, string) -> bool, fails: nat -> bool)

  datatype RunErr =
    | EmptyID | UndefinedID | ConsumedID | DefinedID
    | InvalidState | UnknownSource | UnknownSink | CallFailed | StopFailed(plugin: nat)

  predicate IsIdErr(e: RunErr) { e.EmptyID? || e.UndefinedID? || e.ConsumedID? || e.DefinedID? }

  /** An identifier of nothing but white space. */
  predicate EmptyId(id: string) {
    forall k :: 0 <= k < |id| ==> IsSpace(id[k])
  }

  function NewFault(t: Table, id: string): Option<RunErr> {
    if EmptyId(id) then Some(EmptyID) else if id in t.ids then Some(DefinedID) else None
  }

  function OldFault(t: Table, id: string): Option<RunErr>
    requires Sound(t)
  {
    if EmptyId(id) then Some(EmptyID)
    else if id !in t.ids then Some(UndefinedID)
    else if t.consumed[t.ids[id]] then Some(ConsumedID)
    else None
  }

  function Get(t: Table, id: string): Iter
    requires Sound(t) && id in t.ids
  {
    t.sources[t.ids[id]]
  }

  function Add(t: Table, id: string, x: Iter): (r: Table)
    requires Sound(t)
    ensures Sound(r) && r.ids.Keys == t.ids.Keys + {id}
  {
    t.(ids := t.ids[id := |t.sources|], sources := t.sources + [x], consumed := t.consumed + [false])
  }

  function Replace(t: Table, id: string, x: Iter): (r: Table)
    requires Sound(t) && id in t.ids
    ensures Sound(r) && r.ids == t.ids && |r.sources| == |t.sources|
  {
    t.(sources := t.sources[t.ids[id] := x])
  }

  function Mark(t: Table, id: string): (r: Table)
    requires Sound(t) && id in t.ids
    ensures Sound(r) && r.ids == t.ids
  {
    t.(consumed := t.consumed[t.ids[id] := true])
  }

  /** Makes a call; unless it is a dry run. */
  function Made(t: Table, dry: bool, c: Call): (r: Table)
    requires Sound(t)
    ensures Sound(r) && r.ids == t.ids
  {
    if dry then t else t.(calls := t.calls + [c])
  }

  /** The result of the call to be made next. */
  function Result(t: Table, dry: bool, port: nat): Iter {
    if dry then Nil else Out(|t.calls|, port)
  }

  datatype Step = Step(table: Table, err: Option<RunErr>)

  /** The part that dupe and fanout share. */
  function SplitStep(t: Table, src: string, a: string, b: string, dry: bool, c: Call): (r: Step)
    requires Sound(t)
    ensures Sound(r.table)
  {
    if OldFault(t, src).Some? then Step(t, OldFault(t, src))
    else if NewFault(t, a).Some? then Step(t, NewFault(t, a))
    else if NewFault(t, b).Some? then Step(t, NewFault(t, b))
    else
      var t1 := Made(Mark(t, src), dry, c);
      Step(Add(Add(t1, a, Result(t, dry, 0)), b, Result(t, dry, 1)), None)
  }

  /** Cut, tag and join put an iterator over the one that they are given. */
  function WrapStep(t: Table, src: string, dry: bool, c: Call): (r: Step)
    requires Sound(t)
    ensures Sound(r.table)
  {
    if OldFault(t, src).Some? then Step(t, OldFault(t, src))
    else if dry then Step(t, None)
    else Step(Replace(Made(t, false, c), src, Result(t, false, 0)), None)
  }

  function SourceStep(t: Table, id: string, known: bool, dry: bool, fails: bool, c: Call): (r: Step)
    requires Sound(t)
    ensures Sound(r.table)
  {
    if NewFault(t, id).Some? then Step(t, NewFault(t, id))
    else if !known then Step(t, Some(UnknownSource))
    else if !dry && fails then Step(Made(t, dry, c), Some(CallFailed))
    else Step(Add(Made(t, dry, c), id, Result(t, dry, 0)), None)
  }

  /** The source is consumed even if the sink is not known; an asynchronous sink that fails is only logged. */
  function SinkStep(t: Table, src: string, known: bool, dry: bool, fails: bool, c: Call): (r: Step)
    requires Sound(t)
    ensures Sound(r.table)
  {
    if OldFault(t, src).Some? then Step(t, OldFault(t, src))
    else if !known then Step(Mark(t, src), Some(UnknownSink))
    else Step(Made(Mark(t, src), dry, c), if !dry && fails then Some(CallFailed) else None)
  }

  function MergeStep(t: Table, a: string, b: string, id: string, dry: bool): (r: Step)
    requires Sound(t)
    ensures Sound(r.table)
  {
    if OldFault(t, a).Some? then Step(t, OldFault(t, a))
    else if OldFault(t, b).Some? then Step(t, OldFault(t, b))
    else if NewFault(t, id).Some? then Step(t, NewFault(t, id))
    else
      var t1 := Made(Mark(Mark(t, a), b), dry, MergeCall(Get(t, a), Get(t, b)));
      Step(Add(t1, id, Result(t, dry, 0)), None)
  }

  function AppendStep(t: Table, src: string, target: string, dry: bool): (r: Step)
    requires Sound(t)
    ensures Sound(r.table)
  {
    if OldFault(t, src).Some? then Step(t, OldFault(t, src))
    else if OldFault(t, target).Some? then Step(t, OldFault(t, target))
    else if dry then Step(Mark(t, src), None)
    else
      var t1 := Made(Mark(t, src), false, ConcatCall(Get(t, target), Get(t, src)));
      Step(Replace(t1, target, Result(t, false, 0)), None)
  }

  /** The slot's iterator, if the identifier has one. */
  function GetOrNil(t: Table, id: string): Iter
    requires Sound(t)
  {
    if id in t.ids then Get(t, id) else Nil
  }

  /** One node. In a dry run, tag alone replaces the iterator in the table. */
  function StepOf(t: Table, node: Fields, dry: bool, env: Env): (r: Step)
    requires Sound(t)
    ensures Sound(r.table)
  {
    match node
    case EolNode => Step(t, None)
    case SourceNode(id, q, c, args) =>
      SourceStep(t, id, env.knowsSource(q, c), dry, env.fails(|t.calls|), SourceCall(q, c, args))
    case SinkNode(src, _, async, _, q, c, args) =>
      SinkStep(t, src, env.knowsSink(q, c), dry, !async && env.fails(|t.calls|),
               SinkCall(GetOrNil(t, src), q, c, args))
    case MergeNode(a, b, id) => MergeStep(t, a, b, id, dry)
    case DupeNode(src, a, b) => SplitStep(t, src, a, b, dry, DupeCall(GetOrNil(t, src)))
    case AppendNode(src, target) => AppendStep(t, src, target, dry)
    case CutNode(delimiter, src, fieldSets) =>
      WrapStep(t, src, dry, CutCall(GetOrNil(t, src), delimiter, fieldSets))
    case FanoutNode(src, a, b) => SplitStep(t, src, a, b, dry, FanoutCall(GetOrNil(t, src)))
    case TagNode(src, tag) => WrapStep(t, src, false, TagCall(GetOrNil(t, src), tag))
    case JoinNode(src, patterns) => WrapStep(t, src, dry, JoinCall(GetOrNil(t, src), patterns))
  }

  /** A run: the table it leaves, its error, and the number of nodes before the one that failed. */
  datatype Run = Run(table: Table, err: Option<RunErr>, done: nat)

  function RunOf(t: Table, nodes: seq<Node>, dry: bool, env: Env): (r: Run)
    requires Sound(t)
    ensures Sound(r.table)
    ensures r.done <= |nodes| && (r.err.None? <==> r.done == |nodes|)
    decreases nodes
  {
    if nodes == [] then Run(t, None, 0)
    else
      var s := StepOf(t, nodes[0].fields, dry, env);
      if s.err.Some? then Run(s.table, s.err, 0)
      else
        var r := RunOf(s.table, nodes[1..], dry, env);
        r.(done := r.done + 1)
  }
}
