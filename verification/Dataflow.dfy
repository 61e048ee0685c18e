/** Whole runs of the runtime: what a dry run predicts, which iterators are handed over twice, and what
    a later node can still change. */
module Dataflow {
  import opened Options
  import opened Runes
  import opened Syntax
  import opened RuntimeSpec

  // ----- A dry run predicts the run ------------------------------------------------------------

  /** The tables differ only in the iterators that they hold and in the calls that were made. */
  predicate Same(t: Table, u: Table) {
    t.ids == u.ids && t.consumed == u.consumed && |t.sources| == |u.sources|
  }

  /** What a step of a dry run has to do with the same step of a run. */
  ghost predicate Predicts(d: Step, e: Step, canFail: bool) {
    && d.err != Some(CallFailed)
    && (e.err != Some(CallFailed) ==> d.err == e.err && Same(d.table, e.table))
    && (e.err == Some(CallFailed) <==> canFail && d.err.None?)
  }

  lemma {:induction false} FaultsAreSame(t: Table, u: Table, id: string)
    requires Sound(t) && Sound(u) && Same(t, u)
    ensures OldFault(t, id) == OldFault(u, id) && NewFault(t, id) == NewFault(u, id)
    ensures OldFault(t, id) != Some(CallFailed) && NewFault(t, id) != Some(CallFailed)
    ensures OldFault(t, id).None? ==> id in t.ids
  {
  }

  lemma {:induction false} SourcePredicts(t: Table, u: Table, id: string, known: bool, any: bool, fails: bool, c: Call)
    requires Sound(t) && Sound(u) && Same(t, u)
    ensures Predicts(SourceStep(t, id, known, true, any, c), SourceStep(u, id, known, false, fails, c), fails)
  {
    hide Sound, NewFault;
    FaultsAreSame(t, u, id);
  }

  lemma {:induction false} SinkPredicts(t: Table, u: Table, src: string, known: bool, any: bool, fails: bool,
                                        c: Call, c': Call)
    requires Sound(t) && Sound(u) && Same(t, u)
    ensures Predicts(SinkStep(t, src, known, true, any, c), SinkStep(u, src, known, false, fails, c'), fails)
  {
    hide Sound, OldFault;
    FaultsAreSame(t, u, src);
  }

  lemma {:induction false} MergePredicts(t: Table, u: Table, a: string, b: string, id: string)
    requires Sound(t) && Sound(u) && Same(t, u)
    ensures Predicts(MergeStep(t, a, b, id, true), MergeStep(u, a, b, id, false), false)
  {
    hide Sound, OldFault, NewFault, Get;
    FaultsAreSame(t, u, a);
    FaultsAreSame(t, u, b);
    FaultsAreSame(t, u, id);
  }

  lemma {:induction false} SplitPredicts(t: Table, u: Table, src: string, a: string, b: string, c: Call, c': Call)
    requires Sound(t) && Sound(u) && Same(t, u)
    ensures Predicts(SplitStep(t, src, a, b, true, c), SplitStep(u, src, a, b, false, c'), false)
  {
    hide Sound, OldFault, NewFault;
    FaultsAreSame(t, u, src);
    FaultsAreSame(t, u, a);
    FaultsAreSame(t, u, b);
  }

  lemma {:induction false} AppendPredicts(t: Table, u: Table, src: string, target: string)
    requires Sound(t) && Sound(u) && Same(t, u)
    ensures Predicts(AppendStep(t, src, target, true), AppendStep(u, src, target, false), false)
  {
    hide Sound, OldFault, Get;
    FaultsAreSame(t, u, src);
    FaultsAreSame(t, u, target);
  }

  lemma {:induction false} WrapPredicts(t: Table, u: Table, src: string, dry: bool, c: Call, c': Call)
    requires Sound(t) && Sound(u) && Same(t, u)
    ensures Predicts(WrapStep(t, src, dry, c), WrapStep(u, src, false, c'), false)
  {
    hide Sound, OldFault;
    FaultsAreSame(t, u, src);
  }

  /** Calls can fail for sources and for synchronous sinks. */
  predicate CanFail(node: Fields) { node.SourceNode? || (node.SinkNode? && !node.async) }

  lemma {:induction false} StepPredicts(t: Table, u: Table, node: Fields, env: Env)
    requires Sound(t) && Sound(u) && Same(t, u)
    ensures Predicts(StepOf(t, node, true, env), StepOf(u, node, false, env), CanFail(node) && env.fails(|u.calls|))
  {
    hide Sound, Same, Predicts, SourceStep, SinkStep, MergeStep, SplitStep, AppendStep, WrapStep, GetOrNil;
    var m, n := |t.calls|, |u.calls|;
    match node
    case EolNode => EolPredicts(t, u);
    case SourceNode(id, q, c, args) =>
      SourcePredicts(t, u, id, env.knowsSource(q, c), env.fails(m), env.fails(n), SourceCall(q, c, args));
    case SinkNode(src, _, async, _, q, c, args) =>
      SinkPredicts(t, u, src, env.knowsSink(q, c), !async && env.fails(m), !async && env.fails(n),
                   SinkCall(GetOrNil(t, src), q, c, args), SinkCall(GetOrNil(u, src), q, c, args));
    case MergeNode(a, b, id) => MergePredicts(t, u, a, b, id);
    case DupeNode(src, a, b) =>
      SplitPredicts(t, u, src, a, b, DupeCall(GetOrNil(t, src)), DupeCall(GetOrNil(u, src)));
    case AppendNode(src, target) => AppendPredicts(t, u, src, target);
    case CutNode(delimiter, src, fieldSets) =>
      WrapPredicts(t, u, src, true, CutCall(GetOrNil(t, src), delimiter, fieldSets),
                   CutCall(GetOrNil(u, src), delimiter, fieldSets));
    case FanoutNode(src, a, b) =>
      SplitPredicts(t, u, src, a, b, FanoutCall(GetOrNil(t, src)), FanoutCall(GetOrNil(u, src)));
    case TagNode(src, tag) =>
      WrapPredicts(t, u, src, false, TagCall(GetOrNil(t, src), tag), TagCall(GetOrNil(u, src), tag));
    case JoinNode(src, patterns) =>
      WrapPredicts(t, u, src, true, JoinCall(GetOrNil(t, src), patterns), JoinCall(GetOrNil(u, src), patterns));
  }

  lemma {:induction false} EolPredicts(t: Table, u: Table)
    requires Same(t, u)
    ensures Predicts(Step(t, None), Step(u, None), false)
  {
  }

  /** The verdict of a dry run is never that a call failed. */
  lemma {:induction false} DryRunMakesNoCalls(t: Table, nodes: seq<Node>, env: Env)
    requires Sound(t)
    ensures RunOf(t, nodes, true, env).err != Some(CallFailed)
    decreases nodes
  {
    hide Sound, StepOf;
    if nodes != [] {
      var s := StepOf(t, nodes[0].fields, true, env);
      StepPredicts(t, t, nodes[0].fields, env);
      if s.err.None? {
        DryRunMakesNoCalls(s.table, nodes[1..], env);
      }
    }
  }

  /** How many calls the first k nodes make in a run that gets past them: one each, but for blank lines. */
  function CallsOf(nodes: seq<Node>, k: nat): nat
    requires k <= |nodes|
  {
    if k == 0 then 0 else (if nodes[0].fields.EolNode? then 0 else 1) + CallsOf(nodes[1..], k - 1)
  }

  /** No node before the n-th makes a call that fails, if the next call is the one with this number. */
  ghost predicate CallsSucceed(nodes: seq<Node>, n: nat, call: nat, env: Env)
    requires n <= |nodes|
  {
    forall k :: 0 <= k < n && CanFail(nodes[k].fields) ==> !env.fails(call + CallsOf(nodes, k))
  }

  lemma {:induction false} NothingSucceeds(nodes: seq<Node>, call: nat, env: Env)
    ensures CallsSucceed(nodes, 0, call, env)
  {
  }

  lemma {:induction false} CallsSucceedTail(nodes: seq<Node>, n: nat, call: nat, env: Env)
    requires n < |nodes|
    ensures
      var next := call + if nodes[0].fields.EolNode? then 0 else 1;
      CallsSucceed(nodes, n + 1, call, env) <==>
        (CanFail(nodes[0].fields) ==> !env.fails(call)) && CallsSucceed(nodes[1..], n, next, env)
  {
    hide CanFail;
    assert CallsOf(nodes, 0) == 0;
    forall k | 0 <= k < n
      ensures nodes[1..][k] == nodes[k + 1]
      ensures CallsOf(nodes, k + 1) == (if nodes[0].fields.EolNode? then 0 else 1) + CallsOf(nodes[1..], k)
    {
    }
    if CallsSucceed(nodes, n + 1, call, env) {
      forall k | 0 <= k < n && CanFail(nodes[1..][k].fields)
        ensures !env.fails(call + (if nodes[0].fields.EolNode? then 0 else 1) + CallsOf(nodes[1..], k))
      {
        assert CanFail(nodes[k + 1].fields);
      }
    }
    if (CanFail(nodes[0].fields) ==> !env.fails(call))
       && CallsSucceed(nodes[1..], n, call + if nodes[0].fields.EolNode? then 0 else 1, env) {
      forall k | 0 <= k < n + 1 && CanFail(nodes[k].fields)
        ensures !env.fails(call + CallsOf(nodes, k))
      {
        if 0 < k {
          assert CanFail(nodes[1..][k - 1].fields);
        }
      }
    }
  }

  /** A step that succeeds in a run makes one call, but for a blank line. */
  lemma {:induction false} StepCalls(t: Table, node: Fields, env: Env)
    requires Sound(t) && StepOf(t, node, false, env).err.None?
    ensures |StepOf(t, node, false, env).table.calls| == |t.calls| + if node.EolNode? then 0 else 1
  {
    hide Sound, OldFault, NewFault;
  }

  /** Where a dry run gets to, a run gets to as well, and ends in a failed call there or before exactly if
      one of the calls up to there fails. */
  lemma {:induction false} FailsIff(t: Table, u: Table, nodes: seq<Node>, env: Env)
    requires Sound(t) && Sound(u) && Same(t, u)
    ensures RunOf(u, nodes, false, env).err != Some(CallFailed)
      <==> CallsSucceed(nodes, RunOf(t, nodes, true, env).done, |u.calls|, env)
    decreases nodes
  {
    hide Sound, StepOf, Same, CanFail, CallsSucceed;
    if nodes == [] {
      NothingSucceeds(nodes, |u.calls|, env);
      return;
    }
    var node := nodes[0].fields;
    StepPredicts(t, u, node, env);
    var d, e := StepOf(t, node, true, env), StepOf(u, node, false, env);
    if d.err.Some? {
      NothingSucceeds(nodes, |u.calls|, env);
    } else {
      CallsSucceedTail(nodes, RunOf(d.table, nodes[1..], true, env).done, |u.calls|, env);
      if e.err.None? {
        StepCalls(u, node, env);
        FailsIff(d.table, e.table, nodes[1..], env);
      }
    }
  }

  lemma {:induction false} SameUnlessFailed(t: Table, u: Table, nodes: seq<Node>, env: Env)
    requires Sound(t) && Sound(u) && Same(t, u)
    ensures
      var d, e := RunOf(t, nodes, true, env), RunOf(u, nodes, false, env);
      d.err == e.err && d.done == e.done && Same(d.table, e.table) <==> e.err != Some(CallFailed)
    decreases nodes
  {
    hide Sound, StepOf, Same;
    DryRunMakesNoCalls(t, nodes, env);
    if nodes != [] {
      var node := nodes[0].fields;
      StepPredicts(t, u, node, env);
      var d, e := StepOf(t, node, true, env), StepOf(u, node, false, env);
      if d.err.None? && e.err.None? {
        SameUnlessFailed(d.table, e.table, nodes[1..], env);
      }
    }
  }

  /** From tables that differ only in their iterators: a dry run and a run give the same verdict at the
      same node and leave the same identifiers and marks, exactly if none of the calls that the run is
      going to make for sources and synchronous sinks fails, as far as the dry run gets. */
  lemma {:induction false} DryRunPredictsIff(t: Table, u: Table, nodes: seq<Node>, env: Env)
    requires Sound(t) && Sound(u) && Same(t, u)
    ensures
      var d, e := RunOf(t, nodes, true, env), RunOf(u, nodes, false, env);
      d.err == e.err && d.done == e.done && Same(d.table, e.table)
      <==> forall k :: 0 <= k < d.done && CanFail(nodes[k].fields) ==> !env.fails(|u.calls| + CallsOf(nodes, k))
  {
    hide Sound, StepOf, Same, RunOf, CanFail;
    SameUnlessFailed(t, u, nodes, env);
    FailsIff(t, u, nodes, env);
  }

  /** A single source whose call fails: the dry run says that nothing is wrong. */
  lemma {:induction false} FailingSource(text: string, env: Env)
    requires env.knowsSource("p", "c") && env.fails(0)
    ensures
      var nodes := [Node(text, SourceNode("a", "p", "c", []))];
      RunOf(NO_TABLE, nodes, true, env).err.None? && RunOf(NO_TABLE, nodes, false, env).err == Some(CallFailed)
  {
    assert !IsSpace("a"[0]);
    var nodes := [Node(text, SourceNode("a", "p", "c", []))];
    assert StepOf(NO_TABLE, nodes[0].fields, true, env).err.None?;
    assert nodes[1..] == [];
  }

  // ----- Linear dataflow -----------------------------------------------------------------------

  /** The iterators that a call is given. */
  function Inputs(c: Call): seq<Iter> {
    match c
    case SourceCall(_, _, _) => []
    case MergeCall(a, b) => [a, b]
    case ConcatCall(base, next) => [base, next]
    case SinkCall(x, _, _, _) => [x]
    case DupeCall(x) => [x]
    case CutCall(x, _, _) => [x]
    case FanoutCall(x) => [x]
    case TagCall(x, _) => [x]
    case JoinCall(x, _) => [x]
  }

  /** All iterators that were handed over. */
  function Handed(calls: seq<Call>): seq<Iter> {
    if calls == [] then []
    else Handed(calls[..|calls| - 1]) + Inputs(calls[|calls| - 1])
  }

  ghost predicate Distinct(xs: seq<Iter>) {
    forall i, j :: 0 <= i < j < |xs| ==> xs[i] != xs[j]
  }

  predicate MadeBefore(x: Iter, n: nat) { x.Out? && x.call < n }

  ghost predicate LiveSlot(t: Table, i: int)
    requires Sound(t)
  {
    0 <= i < |t.sources| && !t.consumed[i]
  }

  /** Nothing was handed over twice, xs is about to be handed over, and the iterators in the slots that
      are not consumed are distinct, new, and from calls before the n-th. */
  ghost predicate Pending(t: Table, xs: seq<Iter>, n: nat)
    requires Sound(t)
  {
    var gone := Handed(t.calls) + xs;
    && Distinct(gone) && (forall x :: x in gone ==> MadeBefore(x, n))
    && (forall i :: LiveSlot(t, i) ==> MadeBefore(t.sources[i], n) && t.sources[i] !in gone)
    && (forall i, j :: LiveSlot(t, i) && LiveSlot(t, j) && i != j ==> t.sources[i] != t.sources[j])
  }

  /** No iterator was handed over twice, and those that can still be handed over are distinct and new. */
  ghost predicate Linear(t: Table)
    requires Sound(t)
  {
    Pending(t, [], |t.calls|)
  }

  /** A merge of an iterator with itself, or an append of one to itself. */
  predicate SelfFeeding(node: Fields) {
    || (node.MergeNode? && node.sourceA == node.sourceB)
    || (node.AppendNode? && node.source == node.target)
  }

  lemma {:induction false} HandedMore(calls: seq<Call>, c: Call)
    ensures Handed(calls + [c]) == Handed(calls) + Inputs(c)
  {
  }

  lemma {:induction false} DistinctAdd(xs: seq<Iter>, x: Iter)
    requires Distinct(xs) && x !in xs
    ensures Distinct(xs + [x])
  {
  }

  /** Consuming an identifier takes its iterator out of the table. */
  lemma {:induction false} TakeOut(t: Table, xs: seq<Iter>, n: nat, id: string)
    requires Sound(t) && Pending(t, xs, n) && id in t.ids && LiveSlot(t, t.ids[id])
    ensures Pending(Mark(t, id), xs + [Get(t, id)], n)
  {
    var gone := Handed(t.calls) + xs;
    DistinctAdd(gone, Get(t, id));
    assert gone + [Get(t, id)] == Handed(t.calls) + (xs + [Get(t, id)]);
  }

  /** A new iterator takes the place of one. */
  lemma {:induction false} PutOver(t: Table, xs: seq<Iter>, n: nat, id: string)
    requires Sound(t) && Pending(t, xs, n) && id in t.ids && LiveSlot(t, t.ids[id])
    ensures Pending(Replace(t, id, Out(n, 0)), xs + [Get(t, id)], n + 1)
  {
    var gone := Handed(t.calls) + xs;
    DistinctAdd(gone, Get(t, id));
    assert gone + [Get(t, id)] == Handed(t.calls) + (xs + [Get(t, id)]);
  }

  lemma {:induction false} PutNew(t: Table, xs: seq<Iter>, n: nat, m: nat, id: string, x: Iter)
    requires Sound(t) && Pending(t, xs, n) && n <= m && MadeBefore(x, m) && x !in Handed(t.calls) + xs
    requires forall i :: LiveSlot(t, i) ==> t.sources[i] != x
    ensures Pending(Add(t, id, x), xs, m)
  {
  }

  /** Nothing made before the n-th call is a result of it. */
  lemma {:induction false} ResultIsNew(t: Table, xs: seq<Iter>, n: nat, port: nat)
    requires Sound(t) && Pending(t, xs, n)
    ensures Out(n, port) !in Handed(t.calls) + xs
    ensures forall i :: LiveSlot(t, i) ==> t.sources[i] != Out(n, port)
  {
  }

  /** Making a call hands over what was taken out for it. */
  lemma {:induction false} HandOver(t: Table, c: Call, n: nat)
    requires Sound(t) && Pending(t, Inputs(c), n)
    ensures Pending(Made(t, false, c), [], n)
  {
  }

  lemma {:induction false} PutLater(t: Table, xs: seq<Iter>, n: nat, m: nat)
    requires Sound(t) && Pending(t, xs, n) && n <= m
    ensures Pending(t, xs, m)
  {
  }

  lemma {:induction false} Forget(t: Table, x: Iter, n: nat)
    requires Sound(t) && Pending(t, [x], n)
    ensures Pending(t, [], n)
  {
    var gone := Handed(t.calls) + [x];
    assert Handed(t.calls) + [] == gone[..|gone| - 1];
  }

  lemma {:induction false} WrapLinear(t: Table, src: string, c: Call)
    requires Sound(t) && Linear(t) && Inputs(c) == [GetOrNil(t, src)]
    ensures Linear(WrapStep(t, src, false, c).table)
  {
    hide Sound, Pending, EmptyId, Handed, Inputs;
    if OldFault(t, src).None? {
      var n := |t.calls|;
      LiveHasSlot(t, src);
      PutOver(t, [], n, src);
      assert [] + [Get(t, src)] == Inputs(c);
      HandOver(Replace(t, src, Out(n, 0)), c, n + 1);
    }
  }

  lemma {:induction false} LiveHasSlot(t: Table, id: string)
    requires Sound(t) && OldFault(t, id).None?
    ensures id in t.ids && LiveSlot(t, t.ids[id]) && GetOrNil(t, id) == Get(t, id)
  {
  }

  lemma {:induction false} SourceLinear(t: Table, id: string, known: bool, fails: bool, c: Call)
    requires Sound(t) && Linear(t) && Inputs(c) == []
    ensures Linear(SourceStep(t, id, known, false, fails, c).table)
  {
    hide Sound, Pending, EmptyId, Handed, Inputs;
    var n := |t.calls|;
    HandOver(t, c, n);
    var t1 := Made(t, false, c);
    ResultIsNew(t1, [], n, 0);
    PutNew(t1, [], n, n + 1, id, Out(n, 0));
    PutLater(t1, [], n, n + 1);
  }

  lemma {:induction false} SinkLinear(t: Table, src: string, known: bool, fails: bool, c: Call)
    requires Sound(t) && Linear(t) && Inputs(c) == [GetOrNil(t, src)]
    ensures Linear(SinkStep(t, src, known, false, fails, c).table)
  {
    hide Sound, Pending, EmptyId, Handed, Inputs;
    if OldFault(t, src).None? {
      var n := |t.calls|;
      LiveHasSlot(t, src);
      TakeOut(t, [], n, src);
      var t1 := Mark(t, src);
      assert [] + [Get(t, src)] == Inputs(c) == [Get(t, src)];
      Forget(t1, Get(t, src), n);
      HandOver(t1, c, n);
      PutLater(Made(t1, false, c), [], n, n + 1);
    }
  }

  lemma {:induction false} SplitLinear(t: Table, src: string, a: string, b: string, c: Call)
    requires Sound(t) && Linear(t) && Inputs(c) == [GetOrNil(t, src)]
    ensures Linear(SplitStep(t, src, a, b, false, c).table)
  {
    hide Sound, Pending, EmptyId, Handed, Inputs;
    if SplitStep(t, src, a, b, false, c).err.None? {
      var n := |t.calls|;
      LiveHasSlot(t, src);
      TakeOut(t, [], n, src);
      assert [] + [Get(t, src)] == Inputs(c);
      var t1 := Made(Mark(t, src), false, c);
      HandOver(Mark(t, src), c, n);
      ResultIsNew(t1, [], n, 0);
      PutNew(t1, [], n, n + 1, a, Out(n, 0));
      SecondIsNew(t1, n, a);
      PutNew(Add(t1, a, Out(n, 0)), [], n + 1, n + 1, b, Out(n, 1));
    }
  }

  lemma {:induction false} SecondIsNew(t: Table, n: nat, id: string)
    requires Sound(t) && Pending(t, [], n)
    ensures
      var t1 := Add(t, id, Out(n, 0));
      && Out(n, 1) !in Handed(t1.calls) + []
      && forall i :: LiveSlot(t1, i) ==> t1.sources[i] != Out(n, 1)
  {
  }

  lemma {:induction false} OtherStaysLive(t: Table, id: string, other: string)
    requires Sound(t) && id in t.ids && other in t.ids && id != other && LiveSlot(t, t.ids[other])
    ensures LiveSlot(Mark(t, id), t.ids[other]) && Get(Mark(t, id), other) == Get(t, other)
  {
  }

  lemma {:induction false} MergeLinear(t: Table, a: string, b: string, id: string)
    requires Sound(t) && Linear(t)
    requires a != b || MergeStep(t, a, b, id, false).err.Some?
    ensures Linear(MergeStep(t, a, b, id, false).table)
  {
    hide Sound, Pending, EmptyId, Handed, Get;
    if MergeStep(t, a, b, id, false).err.None? {
      var n := |t.calls|;
      LiveHasSlot(t, a);
      LiveHasSlot(t, b);
      var c := MergeCall(Get(t, a), Get(t, b));
      OtherStaysLive(t, a, b);
      TakeOut(t, [], n, a);
      var t1 := Mark(t, a);
      TakeOut(t1, [] + [Get(t, a)], n, b);
      assert [] + [Get(t, a)] + [Get(t, b)] == Inputs(c);
      var t2 := Mark(t1, b);
      HandOver(t2, c, n);
      ResultIsNew(Made(t2, false, c), [], n, 0);
      PutNew(Made(t2, false, c), [], n, n + 1, id, Out(n, 0));
    }
  }

  lemma {:induction false} AppendLinear(t: Table, src: string, target: string)
    requires Sound(t) && Linear(t)
    requires src != target || AppendStep(t, src, target, false).err.Some?
    ensures Linear(AppendStep(t, src, target, false).table)
  {
    hide Sound, Pending, EmptyId, Handed, Get;
    if AppendStep(t, src, target, false).err.None? {
      var n := |t.calls|;
      LiveHasSlot(t, src);
      LiveHasSlot(t, target);
      var c := ConcatCall(Get(t, target), Get(t, src));
      OtherStaysLive(t, src, target);
      TakeOut(t, [], n, src);
      var t1 := Mark(t, src);
      PutOver(t1, [] + [Get(t, src)], n, target);
      var t2 := Replace(t1, target, Out(n, 0));
      assert [] + [Get(t, src)] + [Get(t, target)] == [Get(t, src), Get(t, target)];
      Swap(t2, Get(t, src), Get(t, target), n + 1);
      HandOver(t2, c, n + 1);
    }
  }

  lemma {:induction false} Swap(t: Table, x: Iter, y: Iter, n: nat)
    requires Sound(t) && Pending(t, [x, y], n)
    ensures Pending(t, [y, x], n)
  {
    var m := |Handed(t.calls)|;
    var gone, other := Handed(t.calls) + [x, y], Handed(t.calls) + [y, x];
    assert gone[m] == x && gone[m + 1] == y;
    assert forall k :: 0 <= k < m ==> other[k] == gone[k];
    assert forall z :: z in other <==> z in gone;
  }

  lemma {:induction false} SelfFeedingDoubles(t: Table, node: Fields, env: Env)
    requires Sound(t) && SelfFeeding(node) && StepOf(t, node, false, env).err.None?
    ensures !Distinct(Handed(StepOf(t, node, false, env).table.calls))
  {
    hide Sound, EmptyId, Handed;
    var src := if node.MergeNode? then node.sourceA else node.source;
    LiveHasSlot(t, src);
    var x := Get(t, src);
    var c := if node.MergeNode? then MergeCall(x, x) else ConcatCall(x, x);
    HandedMore(t.calls, c);
    var gone := Handed(t.calls) + [x, x];
    assert gone[|gone| - 2] == gone[|gone| - 1];
  }

  /** A step keeps the dataflow linear unless it feeds an iterator to itself. */
  lemma {:induction false} StepLinear(t: Table, node: Fields, env: Env)
    requires Sound(t) && Linear(t)
    requires SelfFeeding(node) ==> StepOf(t, node, false, env).err.Some?
    ensures Linear(StepOf(t, node, false, env).table)
  {
    hide Sound, Linear, WrapStep, SourceStep, SinkStep, SplitStep, MergeStep, AppendStep, GetOrNil;
    match node
    case EolNode =>
    case SourceNode(id, q, c, args) =>
      SourceLinear(t, id, env.knowsSource(q, c), env.fails(|t.calls|), SourceCall(q, c, args));
    case SinkNode(src, _, async, _, q, c, args) =>
      SinkLinear(t, src, env.knowsSink(q, c), !async && env.fails(|t.calls|), SinkCall(GetOrNil(t, src), q, c, args));
    case MergeNode(a, b, id) => MergeLinear(t, a, b, id);
    case DupeNode(src, a, b) => SplitLinear(t, src, a, b, DupeCall(GetOrNil(t, src)));
    case AppendNode(src, target) => AppendLinear(t, src, target);
    case CutNode(delimiter, src, fieldSets) => WrapLinear(t, src, CutCall(GetOrNil(t, src), delimiter, fieldSets));
    case FanoutNode(src, a, b) => SplitLinear(t, src, a, b, FanoutCall(GetOrNil(t, src)));
    case TagNode(src, tag) => WrapLinear(t, src, TagCall(GetOrNil(t, src), tag));
    case JoinNode(src, patterns) => WrapLinear(t, src, JoinCall(GetOrNil(t, src), patterns));
  }

  lemma {:induction false} CallsGrow(t: Table, nodes: seq<Node>, dry: bool, env: Env)
    requires Sound(t)
    ensures t.calls <= RunOf(t, nodes, dry, env).table.calls
    decreases nodes
  {
    hide Sound, StepOf;
    if nodes != [] {
      StepCallsGrow(t, nodes[0].fields, dry, env);
      var s := StepOf(t, nodes[0].fields, dry, env);
      if s.err.None? {
        CallsGrow(s.table, nodes[1..], dry, env);
      }
    }
  }

  lemma {:induction false} StepCallsGrow(t: Table, node: Fields, dry: bool, env: Env)
    requires Sound(t)
    ensures t.calls <= StepOf(t, node, dry, env).table.calls
  {
    hide Sound, EmptyId, OldFault, NewFault;
  }

  lemma {:induction false} HandedPrefix(calls: seq<Call>, more: seq<Call>)
    requires calls <= more
    ensures Handed(calls) <= Handed(more)
    ensures !Distinct(Handed(calls)) ==> !Distinct(Handed(more))
    decreases |more|
  {
    if |calls| == |more| {
      assert calls == more;
    } else {
      HandedPrefix(calls, more[..|more| - 1]);
    }
  }

  /** Over a whole run from a linear table: no iterator is ever handed to two combinators or sinks, or to
      one of them twice, exactly if no node that was executed merges or appends an iterator to itself. */
  lemma {:induction false} LinearIff(t: Table, nodes: seq<Node>, env: Env)
    requires Sound(t) && Linear(t)
    ensures
      var r := RunOf(t, nodes, false, env);
      Distinct(Handed(r.table.calls)) <==> forall k :: 0 <= k < r.done ==> !SelfFeeding(nodes[k].fields)
    decreases nodes
  {
    hide Sound, StepOf, SelfFeeding, Handed, Pending, Distinct;
    if nodes == [] {
      LinearIsDistinct(t);
    } else {
      var node, rest := nodes[0].fields, nodes[1..];
      var s := StepOf(t, node, false, env);
      var r := RunOf(t, nodes, false, env);
      if s.err.Some? {
        StepLinear(t, node, env);
        LinearIsDistinct(s.table);
      } else if SelfFeeding(node) {
        SelfFeedingDoubles(t, node, env);
        CallsGrow(s.table, rest, false, env);
        HandedPrefix(s.table.calls, r.table.calls);
      } else {
        StepLinear(t, node, env);
        LinearIff(s.table, rest, env);
        assert forall k :: 0 < k < |nodes| ==> nodes[k] == rest[k - 1];
        assert forall k :: 0 <= k < |rest| ==> rest[k] == nodes[k + 1];
      }
    }
  }

  lemma {:induction false} LinearIsDistinct(t: Table)
    requires Sound(t) && Linear(t)
    ensures Distinct(Handed(t.calls))
  {
    assert Handed(t.calls) + [] == Handed(t.calls);
  }

  lemma {:induction false} FreshIsLinear()
    ensures Sound(NO_TABLE) && Linear(NO_TABLE)
  {
  }

  // ----- What later nodes cannot change --------------------------------------------------------

  /** Both tables have the identifier in the same slot, consumed, with the same iterator. */
  ghost predicate SameEntry(t: Table, u: Table, id: string)
    requires Sound(t) && Sound(u)
  {
    && id in t.ids && id in u.ids && t.ids[id] == u.ids[id]
    && t.consumed[t.ids[id]] && u.consumed[u.ids[id]]
    && Get(t, id) == Get(u, id)
  }

  lemma {:induction false} AddKeeps(t: Table, other: string, x: Iter, id: string)
    requires Sound(t) && SameEntry(t, t, id) && other != id
    ensures SameEntry(t, Add(t, other, x), id)
  {
  }

  lemma {:induction false} MarkKeeps(t: Table, other: string, id: string)
    requires Sound(t) && SameEntry(t, t, id) && other in t.ids
    ensures SameEntry(t, Mark(t, other), id)
  {
  }

  lemma {:induction false} MadeKeeps(t: Table, dry: bool, c: Call, id: string)
    requires Sound(t) && SameEntry(t, t, id)
    ensures SameEntry(t, Made(t, dry, c), id)
  {
  }

  lemma {:induction false} NotConsumed(t: Table, id: string, other: string)
    requires Sound(t) && SameEntry(t, t, id)
    ensures OldFault(t, other).None? ==> other != id && other in t.ids
    ensures NewFault(t, other).None? ==> other != id
  {
  }

  lemma {:induction false} WrapKeeps(t: Table, src: string, dry: bool, c: Call, id: string)
    requires Sound(t) && SameEntry(t, t, id)
    ensures SameEntry(t, WrapStep(t, src, dry, c).table, id)
  {
  }

  lemma {:induction false} EntryOf(t: Table, u: Table, v: Table, id: string)
    requires Sound(t) && Sound(u) && Sound(v) && SameEntry(t, u, id)
    ensures SameEntry(u, u, id)
    ensures SameEntry(u, v, id) ==> SameEntry(t, v, id)
  {
  }

  lemma {:induction false} SourceKeeps(t: Table, other: string, known: bool, dry: bool, fails: bool, c: Call,
                                       id: string)
    requires Sound(t) && SameEntry(t, t, id)
    ensures SameEntry(t, SourceStep(t, other, known, dry, fails, c).table, id)
  {
  }

  lemma {:induction false} SinkKeeps(t: Table, src: string, known: bool, dry: bool, fails: bool, c: Call, id: string)
    requires Sound(t) && SameEntry(t, t, id)
    ensures SameEntry(t, SinkStep(t, src, known, dry, fails, c).table, id)
  {
    hide Sound, OldFault, Mark, Made, SameEntry;
    NotConsumed(t, id, src);
    if OldFault(t, src).None? {
      MarkKeeps(t, src, id);
      var t1 := Mark(t, src);
      EntryOf(t, t1, t1, id);
      MadeKeeps(t1, dry, c, id);
      EntryOf(t, t1, Made(t1, dry, c), id);
    }
  }

  lemma {:induction false} SplitKeeps(t: Table, src: string, a: string, b: string, dry: bool, c: Call, id: string)
    requires Sound(t) && SameEntry(t, t, id)
    ensures SameEntry(t, SplitStep(t, src, a, b, dry, c).table, id)
  {
    hide Sound, OldFault, NewFault, Mark, Made, Add, SameEntry;
    NotConsumed(t, id, src);
    NotConsumed(t, id, a);
    NotConsumed(t, id, b);
    if SplitStep(t, src, a, b, dry, c).err.None? {
      MarkKeeps(t, src, id);
      var t1 := Mark(t, src);
      EntryOf(t, t1, t1, id);
      MadeKeeps(t1, dry, c, id);
      var t2 := Made(t1, dry, c);
      EntryOf(t1, t2, t2, id);
      AddKeeps(t2, a, Result(t, dry, 0), id);
      var t3 := Add(t2, a, Result(t, dry, 0));
      EntryOf(t2, t3, t3, id);
      AddKeeps(t3, b, Result(t, dry, 1), id);
      EntryOf(t2, t3, Add(t3, b, Result(t, dry, 1)), id);
      EntryOf(t1, t2, Add(t3, b, Result(t, dry, 1)), id);
      EntryOf(t, t1, Add(t3, b, Result(t, dry, 1)), id);
    }
  }

  lemma {:induction false} MergeKeeps(t: Table, a: string, b: string, other: string, dry: bool, id: string)
    requires Sound(t) && SameEntry(t, t, id)
    ensures SameEntry(t, MergeStep(t, a, b, other, dry).table, id)
  {
    hide Sound, OldFault, NewFault, Mark, Made, Add, SameEntry, Get;
    NotConsumed(t, id, a);
    NotConsumed(t, id, b);
    NotConsumed(t, id, other);
    if MergeStep(t, a, b, other, dry).err.None? {
      MarkKeeps(t, a, id);
      var t1 := Mark(t, a);
      EntryOf(t, t1, t1, id);
      MarkKeeps(t1, b, id);
      var t2 := Mark(t1, b);
      EntryOf(t1, t2, t2, id);
      var c := MergeCall(Get(t, a), Get(t, b));
      MadeKeeps(t2, dry, c, id);
      var t3 := Made(t2, dry, c);
      EntryOf(t2, t3, t3, id);
      AddKeeps(t3, other, Result(t, dry, 0), id);
      var t4 := Add(t3, other, Result(t, dry, 0));
      EntryOf(t2, t3, t4, id);
      EntryOf(t1, t2, t4, id);
      EntryOf(t, t1, t4, id);
    }
  }

  lemma {:induction false} AppendKeeps(t: Table, src: string, target: string, dry: bool, id: string)
    requires Sound(t) && SameEntry(t, t, id)
    ensures SameEntry(t, AppendStep(t, src, target, dry).table, id)
  {
  }

  lemma {:induction false} StepKeeps(t: Table, node: Fields, dry: bool, env: Env, id: string)
    requires Sound(t) && SameEntry(t, t, id)
    ensures SameEntry(t, StepOf(t, node, dry, env).table, id)
  {
    hide Sound, SameEntry, WrapStep, SourceStep, SinkStep, SplitStep, MergeStep, AppendStep, GetOrNil;
    match node
    case EolNode =>
    case SourceNode(other, q, c, args) =>
      SourceKeeps(t, other, env.knowsSource(q, c), dry, env.fails(|t.calls|), SourceCall(q, c, args), id);
    case SinkNode(src, _, async, _, q, c, args) =>
      SinkKeeps(t, src, env.knowsSink(q, c), dry, !async && env.fails(|t.calls|),
                SinkCall(GetOrNil(t, src), q, c, args), id);
    case MergeNode(a, b, other) => MergeKeeps(t, a, b, other, dry, id);
    case DupeNode(src, a, b) => SplitKeeps(t, src, a, b, dry, DupeCall(GetOrNil(t, src)), id);
    case AppendNode(src, target) => AppendKeeps(t, src, target, dry, id);
    case CutNode(delimiter, src, fieldSets) =>
      WrapKeeps(t, src, dry, CutCall(GetOrNil(t, src), delimiter, fieldSets), id);
    case FanoutNode(src, a, b) => SplitKeeps(t, src, a, b, dry, FanoutCall(GetOrNil(t, src)), id);
    case TagNode(src, tag) => WrapKeeps(t, src, false, TagCall(GetOrNil(t, src), tag), id);
    case JoinNode(src, patterns) => WrapKeeps(t, src, dry, JoinCall(GetOrNil(t, src), patterns), id);
  }

  /** Once an identifier is consumed, no later node changes what stands behind it. */
  lemma {:induction false} ConsumedStays(t: Table, nodes: seq<Node>, dry: bool, env: Env, id: string)
    requires Sound(t) && SameEntry(t, t, id)
    ensures SameEntry(t, RunOf(t, nodes, dry, env).table, id)
    decreases nodes
  {
    hide Sound, StepOf, SameEntry;
    if nodes != [] {
      StepKeeps(t, nodes[0].fields, dry, env, id);
      var s := StepOf(t, nodes[0].fields, dry, env);
      if s.err.None? {
        EntryOf(t, s.table, s.table, id);
        ConsumedStays(s.table, nodes[1..], dry, env, id);
        EntryOf(t, s.table, RunOf(s.table, nodes[1..], dry, env).table, id);
      }
    }
  }

  /** An asynchronous sink looks its source up when it runs. However many nodes have been executed by
      then, it finds the iterator that stood there when the sink was issued. */
  lemma {:induction false} LateLookup(t: Table, sink: Fields, later: seq<Node>, env: Env)
    requires Sound(t) && sink.SinkNode? && StepOf(t, sink, false, env).err.None?
    ensures
      var issued := StepOf(t, sink, false, env).table;
      var u := RunOf(issued, later, false, env).table;
      && sink.source in t.ids && sink.source in u.ids
      && Get(u, sink.source) == Get(t, sink.source) == issued.calls[|issued.calls| - 1].x
  {
    hide Sound, EmptyId, RunOf;
    LiveHasSlot(t, sink.source);
    var issued := StepOf(t, sink, false, env).table;
    assert SameEntry(issued, issued, sink.source) by { MarkedEntry(t, sink.source); }
    ConsumedStays(issued, later, false, env, sink.source);
    MarkedEntry(t, sink.source);
  }

  lemma {:induction false} MarkedEntry(t: Table, id: string)
    requires Sound(t) && id in t.ids
    ensures SameEntry(Mark(t, id), Mark(t, id), id) && Get(Mark(t, id), id) == Get(t, id)
  {
  }

  // ----- The same nodes a second time ----------------------------------------------------------

  /** The nodes that define or consume an identifier. */
  predicate Changes(node: Fields) {
    || node.SourceNode? || node.SinkNode? || node.MergeNode?
    || node.DupeNode? || node.FanoutNode? || node.AppendNode?
  }

  /** What u knows and has consumed, v knows and has consumed. */
  ghost predicate Covers(v: Table, u: Table)
    requires Sound(v) && Sound(u)
  {
    forall id :: id in u.ids ==> id in v.ids && (u.consumed[u.ids[id]] ==> v.consumed[v.ids[id]])
  }

  lemma {:induction false} OpsCover(t: Table, id: string, x: Iter, dry: bool, c: Call)
    requires Sound(t)
    ensures Covers(Made(t, dry, c), t)
    ensures id !in t.ids ==> Covers(Add(t, id, x), t)
    ensures id in t.ids ==> Covers(Mark(t, id), t) && Covers(Replace(t, id, x), t)
  {
  }

  lemma {:induction false} CoversTrans(w: Table, v: Table, u: Table)
    requires Sound(w) && Sound(v) && Sound(u) && Covers(w, v) && Covers(v, u)
    ensures Covers(w, u)
  {
  }

  lemma {:induction false} WrapCovers(t: Table, src: string, dry: bool, c: Call)
    requires Sound(t)
    ensures Covers(WrapStep(t, src, dry, c).table, t)
  {
  }

  lemma {:induction false} CoversItself(t: Table)
    requires Sound(t)
    ensures Covers(t, t)
  {
  }

  lemma {:induction false} SourceCovers(t: Table, id: string, known: bool, dry: bool, fails: bool, c: Call)
    requires Sound(t)
    ensures Covers(SourceStep(t, id, known, dry, fails, c).table, t)
  {
  }

  lemma {:induction false} SinkCovers(t: Table, src: string, known: bool, dry: bool, fails: bool, c: Call)
    requires Sound(t)
    ensures Covers(SinkStep(t, src, known, dry, fails, c).table, t)
  {
    hide Sound, Covers, EmptyId, Mark, Made;
    CoversItself(t);
    OpsCover(t, src, Nil, dry, c);
    if OldFault(t, src).None? {
      var t1 := Mark(t, src);
      OpsCover(t1, src, Nil, dry, c);
      CoversTrans(Made(t1, dry, c), t1, t);
    }
  }

  lemma {:induction false} SplitCovers(t: Table, src: string, a: string, b: string, dry: bool, c: Call)
    requires Sound(t)
    ensures Covers(SplitStep(t, src, a, b, dry, c).table, t)
  {
    hide Sound, Covers, EmptyId, Mark, Made, Add;
    CoversItself(t);
    if SplitStep(t, src, a, b, dry, c).err.None? {
      OpsCover(t, src, Nil, dry, c);
      var t1 := Mark(t, src);
      OpsCover(t1, src, Nil, dry, c);
      var t2 := Made(t1, dry, c);
      CoversTrans(t2, t1, t);
      OpsCover(t2, a, Result(t, dry, 0), dry, c);
      var t3 := Add(t2, a, Result(t, dry, 0));
      CoversTrans(t3, t2, t);
      SecondCovers(t3, a, b, Result(t, dry, 1), t2);
      CoversTrans(Add(t3, b, Result(t, dry, 1)), t2, t);
    }
  }

  /** The second result of a split replaces the first one if both go by the same name. */
  lemma {:induction false} SecondCovers(t: Table, a: string, b: string, x: Iter, u: Table)
    requires Sound(t) && Sound(u) && Covers(t, u) && a !in u.ids && b !in u.ids
    ensures Covers(Add(t, b, x), u)
  {
  }

  lemma {:induction false} MergeCovers(t: Table, a: string, b: string, id: string, dry: bool)
    requires Sound(t)
    ensures Covers(MergeStep(t, a, b, id, dry).table, t)
  {
    hide Sound, Covers, EmptyId, Mark, Made, Add, Get;
    CoversItself(t);
    if MergeStep(t, a, b, id, dry).err.None? {
      var c, x := MergeCall(Get(t, a), Get(t, b)), Result(t, dry, 0);
      OpsCover(t, a, x, dry, c);
      var t1 := Mark(t, a);
      OpsCover(t1, b, x, dry, c);
      var t2 := Mark(t1, b);
      CoversTrans(t2, t1, t);
      OpsCover(t2, id, x, dry, c);
      var t3 := Made(t2, dry, c);
      CoversTrans(t3, t2, t);
      OpsCover(t3, id, x, dry, c);
      CoversTrans(Add(t3, id, x), t3, t);
    }
  }

  lemma {:induction false} AppendCovers(t: Table, src: string, target: string, dry: bool)
    requires Sound(t)
    ensures Covers(AppendStep(t, src, target, dry).table, t)
  {
    hide Sound, Covers, EmptyId, Mark, Made, Replace, Get;
    CoversItself(t);
    if AppendStep(t, src, target, dry).err.None? {
      var c, x := ConcatCall(Get(t, target), Get(t, src)), Result(t, false, 0);
      OpsCover(t, src, x, false, c);
      var t1 := Mark(t, src);
      OpsCover(t1, src, x, false, c);
      var t2 := Made(t1, false, c);
      CoversTrans(t2, t1, t);
      OpsCover(t2, target, x, false, c);
      CoversTrans(Replace(t2, target, x), t2, t);
    }
  }

  lemma {:induction false} StepCovers(t: Table, node: Fields, dry: bool, env: Env)
    requires Sound(t)
    ensures Covers(StepOf(t, node, dry, env).table, t)
  {
    hide Sound, Covers, WrapStep, SourceStep, SinkStep, SplitStep, MergeStep, AppendStep, GetOrNil;
    match node
    case EolNode => CoversItself(t);
    case SourceNode(id, q, c, args) =>
      SourceCovers(t, id, env.knowsSource(q, c), dry, env.fails(|t.calls|), SourceCall(q, c, args));
    case SinkNode(src, _, async, _, q, c, args) =>
      SinkCovers(t, src, env.knowsSink(q, c), dry, !async && env.fails(|t.calls|),
                 SinkCall(GetOrNil(t, src), q, c, args));
    case MergeNode(a, b, id) => MergeCovers(t, a, b, id, dry);
    case DupeNode(src, a, b) => SplitCovers(t, src, a, b, dry, DupeCall(GetOrNil(t, src)));
    case AppendNode(src, target) => AppendCovers(t, src, target, dry);
    case CutNode(delimiter, src, fieldSets) =>
      WrapCovers(t, src, dry, CutCall(GetOrNil(t, src), delimiter, fieldSets));
    case FanoutNode(src, a, b) => SplitCovers(t, src, a, b, dry, FanoutCall(GetOrNil(t, src)));
    case TagNode(src, tag) => WrapCovers(t, src, false, TagCall(GetOrNil(t, src), tag));
    case JoinNode(src, patterns) => WrapCovers(t, src, dry, JoinCall(GetOrNil(t, src), patterns));
  }

  lemma {:induction false} RunCovers(t: Table, nodes: seq<Node>, dry: bool, env: Env)
    requires Sound(t)
    ensures Covers(RunOf(t, nodes, dry, env).table, t)
    decreases nodes
  {
    hide Sound, StepOf, Covers;
    if nodes == [] {
      CoversItself(t);
    } else {
      StepCovers(t, nodes[0].fields, dry, env);
      var s := StepOf(t, nodes[0].fields, dry, env);
      if s.err.None? {
        RunCovers(s.table, nodes[1..], dry, env);
        CoversTrans(RunOf(s.table, nodes[1..], dry, env).table, s.table, t);
      }
    }
  }

  /** A node that defined or consumed an identifier fails where that is already so. */
  lemma {:induction false} ChangesOnce(t: Table, node: Fields, dry: bool, v: Table, dry': bool, env: Env)
    requires Sound(t) && Sound(v) && Changes(node) && StepOf(t, node, dry, env).err.None?
    requires Covers(v, StepOf(t, node, dry, env).table)
    ensures
      var r := StepOf(v, node, dry', env);
      r.err.Some? && IsIdErr(r.err.value)
  {
    hide EmptyId, Covers, Sound;
    var u := StepOf(t, node, dry, env).table;
    if node.SourceNode? {
      CoversId(v, u, node.id);
    } else {
      Consumes(t, node, dry, env);
      CoversId(v, u, Taken(node));
    }
  }

  /** The first source of a node that takes its sources away. */
  function Taken(node: Fields): string
    requires Changes(node) && !node.SourceNode?
  {
    if node.MergeNode? then node.sourceA else node.source
  }

  lemma {:induction false} SinkConsumes(t: Table, src: string, known: bool, dry: bool, fails: bool, c: Call)
    requires Sound(t) && SinkStep(t, src, known, dry, fails, c).err.None?
    ensures
      var u := SinkStep(t, src, known, dry, fails, c).table;
      src in u.ids && u.consumed[u.ids[src]]
  {
  }

  lemma {:induction false} SplitConsumes(t: Table, src: string, a: string, b: string, dry: bool, c: Call)
    requires Sound(t) && SplitStep(t, src, a, b, dry, c).err.None?
    ensures
      var u := SplitStep(t, src, a, b, dry, c).table;
      src in u.ids && u.consumed[u.ids[src]]
  {
    hide EmptyId, Sound, Add, Mark, Made;
    MarkConsumes(t, src, dry, c);
    var t1 := Made(Mark(t, src), dry, c);
    AddKeepsConsumed(t1, a, Result(t, dry, 0), src);
    AddKeepsConsumed(Add(t1, a, Result(t, dry, 0)), b, Result(t, dry, 1), src);
  }

  lemma {:induction false} MarkConsumes(t: Table, id: string, dry: bool, c: Call)
    requires Sound(t) && id in t.ids
    ensures
      var u := Made(Mark(t, id), dry, c);
      id in u.ids && u.ids[id] < |u.consumed| && u.consumed[u.ids[id]]
  {
  }

  lemma {:induction false} AddKeepsConsumed(t: Table, id: string, x: Iter, other: string)
    requires Sound(t) && id != other && other in t.ids && t.ids[other] < |t.consumed| && t.consumed[t.ids[other]]
    ensures
      var u := Add(t, id, x);
      other in u.ids && u.ids[other] < |u.consumed| && u.consumed[u.ids[other]]
  {
  }

  lemma {:induction false} MergeConsumes(t: Table, a: string, b: string, id: string, dry: bool)
    requires Sound(t) && MergeStep(t, a, b, id, dry).err.None?
    ensures
      var u := MergeStep(t, a, b, id, dry).table;
      a in u.ids && u.consumed[u.ids[a]]
  {
    hide EmptyId, Get;
  }

  lemma {:induction false} AppendConsumes(t: Table, src: string, target: string, dry: bool)
    requires Sound(t) && AppendStep(t, src, target, dry).err.None?
    ensures
      var u := AppendStep(t, src, target, dry).table;
      src in u.ids && u.consumed[u.ids[src]]
  {
  }

  lemma {:induction false} Consumes(t: Table, node: Fields, dry: bool, env: Env)
    requires Sound(t) && Changes(node) && !node.SourceNode? && StepOf(t, node, dry, env).err.None?
    ensures
      var u := StepOf(t, node, dry, env).table;
      Taken(node) in u.ids && u.consumed[u.ids[Taken(node)]]
  {
    hide Sound, SinkStep, SplitStep, MergeStep, AppendStep, GetOrNil;
    match node
    case SinkNode(src, _, async, _, q, c, args) =>
      SinkConsumes(t, src, env.knowsSink(q, c), dry, !async && env.fails(|t.calls|),
                   SinkCall(GetOrNil(t, src), q, c, args));
    case MergeNode(a, b, id) => MergeConsumes(t, a, b, id, dry);
    case DupeNode(src, a, b) => SplitConsumes(t, src, a, b, dry, DupeCall(GetOrNil(t, src)));
    case FanoutNode(src, a, b) => SplitConsumes(t, src, a, b, dry, FanoutCall(GetOrNil(t, src)));
    case AppendNode(src, target) => AppendConsumes(t, src, target, dry);
  }

  lemma {:induction false} CoversId(v: Table, u: Table, id: string)
    requires Sound(v) && Sound(u) && Covers(v, u) && id in u.ids
    ensures id in v.ids && (u.consumed[u.ids[id]] ==> v.consumed[v.ids[id]])
  {
  }

  /** A node that changes nothing: the table keeps its identifiers and marks. */
  lemma {:induction false} NoChange(t: Table, node: Fields, dry: bool, env: Env)
    requires Sound(t) && !Changes(node)
    ensures
      var r := StepOf(t, node, dry, env);
      Same(r.table, t) && (r.err.Some? ==> IsIdErr(r.err.value))
  {
    hide EmptyId, Sound;
  }

  /** Nodes that ran once, run again on a table that covers what they left. */
  lemma {:induction false} SecondRunFails(t: Table, nodes: seq<Node>, dry: bool, v: Table, dry': bool, env: Env, k: nat)
    requires Sound(t) && Sound(v) && RunOf(t, nodes, dry, env).err.None?
    requires Covers(v, RunOf(t, nodes, dry, env).table)
    requires k < |nodes| && Changes(nodes[k].fields)
    ensures
      var r := RunOf(v, nodes, dry', env);
      r.err.Some? && IsIdErr(r.err.value)
    decreases nodes
  {
    hide Sound, StepOf, Covers, Changes, Same, IsIdErr;
    var node, rest := nodes[0].fields, nodes[1..];
    var s := StepOf(t, node, dry, env);
    var u := RunOf(s.table, rest, dry, env).table;
    RunCovers(s.table, rest, dry, env);
    CoversTrans(v, u, s.table);
    if Changes(node) {
      ChangesOnce(t, node, dry, v, dry', env);
    } else {
      NoChange(v, node, dry', env);
      StepCovers(v, node, dry', env);
      var s' := StepOf(v, node, dry', env);
      if s'.err.None? {
        CoversTrans(s'.table, v, u);
        assert k != 0 && rest[k - 1] == nodes[k];
        SecondRunFails(s.table, rest, dry, s'.table, dry', env, k - 1);
      }
    }
  }

  lemma {:induction false} SecondRunPasses(t: Table, nodes: seq<Node>, dry: bool, v: Table, dry': bool, env: Env)
    requires Sound(t) && Sound(v) && Same(v, t) && RunOf(t, nodes, dry, env).err.None?
    requires forall k :: 0 <= k < |nodes| ==> !Changes(nodes[k].fields)
    ensures RunOf(v, nodes, dry', env).err.None? && Same(RunOf(t, nodes, dry, env).table, t)
    decreases nodes
  {
    hide Sound, StepOf, Changes;
    if nodes != [] {
      var node := nodes[0].fields;
      NoChange(t, node, dry, env);
      NoChange(v, node, dry', env);
      DryOrNot(t, node, dry, v, dry', env);
      SecondRunPasses(StepOf(t, node, dry, env).table, nodes[1..], dry, StepOf(v, node, dry', env).table, dry', env);
    }
  }

  lemma {:induction false} DryOrNot(t: Table, node: Fields, dry: bool, v: Table, dry': bool, env: Env)
    requires Sound(t) && Sound(v) && Same(v, t) && !Changes(node)
    ensures StepOf(t, node, dry, env).err == StepOf(v, node, dry', env).err
  {
    hide Sound, EmptyId;
  }

  /** Nodes that ran without an error, as a dry run or not, run a second time on the same runtime exactly
      if none of them defines or consumes an identifier; otherwise an identifier is at fault. So a script
      that was only tried out cannot be executed on the runtime that tried it. */
  lemma {:induction false} SecondRunIff(t: Table, nodes: seq<Node>, dry: bool, dry': bool, env: Env)
    requires Sound(t) && RunOf(t, nodes, dry, env).err.None?
    ensures
      var r := RunOf(RunOf(t, nodes, dry, env).table, nodes, dry', env);
      && (r.err.None? <==> forall k :: 0 <= k < |nodes| ==> !Changes(nodes[k].fields))
      && (r.err.Some? ==> IsIdErr(r.err.value))
  {
    hide Sound, RunOf, Covers, Changes, IsIdErr;
    var u := RunOf(t, nodes, dry, env).table;
    if k :| 0 <= k < |nodes| && Changes(nodes[k].fields) {
      CoversItself(u);
      SecondRunFails(t, nodes, dry, u, dry', env, k);
    } else {
      SecondRunPasses(t, nodes, dry, t, dry, env);
      SecondRunPasses(t, nodes, dry, u, dry', env);
    }
  }
}
