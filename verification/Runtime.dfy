/** The runtime: executes nodes one after the other over its identifier table. */
module Runtime {
  import opened Options
  import opened Syntax
  import opened RuntimeSpec

  datatype State = Created | Started | Executing | Stopping | Stopped

  /** The error of the first plugin that fails. */
  function FirstFailing(failing: seq<bool>): (err: Option<RunErr>)
    ensures err.None? ==> forall p :: 0 <= p < |failing| ==> !failing[p]
    ensures err.Some? ==>
      && err.value.StopFailed? && err.value.plugin < |failing| && failing[err.value.plugin]
      && forall p :: 0 <= p < err.value.plugin ==> !failing[p]
  {
    if failing == [] then None
    else
      var front := FirstFailing(failing[..|failing| - 1]);
      if front.None? && failing[|failing| - 1] then Some(StopFailed(|failing| - 1)) else front
  }

  class Runtime {
    var sources: seq<Iter>
    var consumed: seq<bool>
    var sourceIDs: map<string, nat>
    var state: State
    var dryRun: bool
    const registry: Env
    var calls: seq<Call> // made so far to plugins and combinators

    ghost function Tab(): Table
      reads this
    {
      Table(sourceIDs, sources, consumed, calls)
    }

    ghost predicate Valid()
      reads this
      ensures Valid() ==> Sound(Tab())
    {
      Sound(Tab())
    }

    constructor (registry: Env)
      ensures Valid() && Tab() == NO_TABLE && state == Created && !dryRun && this.registry == registry
    {
      sources, consumed, sourceIDs, calls := [], [], map[], [];
      state, dryRun, this.registry := Created, false, registry;
    }

    /** Only a runtime that was just created can be started. Registering the plugins is not modelled. */
    method Start() returns (err: Option<RunErr>)
      requires Valid()
      modifies `state
      ensures Valid()
      ensures err == (if old(state) == Created then None else Some(InvalidState))
      ensures state == if err.None? then Started else old(state)
    {
      if state != Created {
        return Some(InvalidState);
      }
      state := Started;
      return None;
    }

    /** Only a started runtime can be stopped, and it can never be started again. All plugins are told to
        stop; the first error of one is the result. */
    method Stop(failing: seq<bool>) returns (err: Option<RunErr>)
      requires Valid()
      modifies `state
      ensures Valid()
      ensures old(state) != Started ==> err == Some(InvalidState) && state == old(state)
      ensures old(state) == Started ==> state == Stopped && err == FirstFailing(failing)
    {
      if state != Started {
        return Some(InvalidState);
      }
      state := Stopping;
      err := None;
      for p := 0 to |failing|
        invariant err == FirstFailing(failing[..p])
      {
        if failing[p] && err.None? {
          err := Some(StopFailed(p));
        }
        assert failing[..p + 1][..p] == failing[..p];
      }
      assert failing[..|failing|] == failing;
      state := Stopped;
    }

    // ----- Identifiers -------------------------------------------------------------------------

    function ValidateNewSourceID(id: string): (err: Option<RunErr>)
      reads this
      ensures err == NewFault(Tab(), id)
    {
      if EmptyId(id) then Some(EmptyID) else if id in sourceIDs then Some(DefinedID) else None
    }

    function ValidateExistingSourceID(id: string): (err: Option<RunErr>)
      requires Valid()
      reads this
      ensures err == OldFault(Tab(), id)
    {
      if EmptyId(id) then Some(EmptyID)
      else if id !in sourceIDs then Some(UndefinedID)
      else if consumed[sourceIDs[id]] then Some(ConsumedID)
      else None
    }

    function GetSource(id: string): (x: Iter)
      requires Valid() && id in sourceIDs
      reads this
      ensures x == Get(Tab(), id)
    {
      sources[sourceIDs[id]]
    }

    method AddSource(id: string, iter: Iter)
      requires Valid()
      modifies `sources, `consumed, `sourceIDs
      ensures Valid() && Tab() == Add(old(Tab()), id, iter)
    {
      var i := |sources|;
      sources := sources + [iter];
      consumed := consumed + [false];
      sourceIDs := sourceIDs[id := i];
    }

    method ReplaceSource(id: string, iter: Iter)
      requires Valid() && id in sourceIDs
      modifies `sources
      ensures Valid() && Tab() == Replace(old(Tab()), id, iter)
    {
      sources := sources[sourceIDs[id] := iter];
    }

    method MarkConsumed(id: string)
      requires Valid() && id in sourceIDs
      modifies `consumed
      ensures Valid() && Tab() == Mark(old(Tab()), id)
    {
      consumed := consumed[sourceIDs[id] := true];
    }

    /** Makes a call to a plugin or a combinator, and returns its number. */
    method Invoke(c: Call) returns (n: nat)
      requires Valid()
      modifies `calls
      ensures Valid() && n == |old(calls)| && Tab() == Made(old(Tab()), false, c)
    {
      n := |calls|;
      calls := calls + [c];
    }

    // ----- Nodes -------------------------------------------------------------------------------

    method ExecuteSource(node: Fields) returns (err: Option<RunErr>)
      requires Valid() && node.SourceNode?
      modifies `sources, `consumed, `sourceIDs, `calls
      ensures Valid() && RuntimeSpec.Step(Tab(), err) == StepOf(old(Tab()), node, dryRun, registry)
    {
      hide Sound, EmptyId;
      err := ValidateNewSourceID(node.id);
      if err.Some? {
        return;
      }
      if !registry.knowsSource(node.qualifier, node.class_) {
        return Some(UnknownSource);
      }
      if dryRun {
        AddSource(node.id, Nil);
        return None;
      }
      var n := Invoke(SourceCall(node.qualifier, node.class_, node.args));
      if registry.fails(n) {
        return Some(CallFailed);
      }
      AddSource(node.id, Out(n, 0));
      return None;
    }

    method ExecuteSink(node: Fields) returns (err: Option<RunErr>)
      requires Valid() && node.SinkNode?
      modifies `sources, `consumed, `sourceIDs, `calls
      ensures Valid() && RuntimeSpec.Step(Tab(), err) == StepOf(old(Tab()), node, dryRun, registry)
    {
      hide Sound, EmptyId;
      err := ValidateExistingSourceID(node.source);
      if err.Some? {
        return;
      }
      MarkConsumed(node.source);
      if !registry.knowsSink(node.qualifier, node.class_) {
        return Some(UnknownSink);
      }
      if dryRun {
        return None;
      }
      var n := Invoke(SinkCall(GetSource(node.source), node.qualifier, node.class_, node.args));
      if !node.async && registry.fails(n) {
        return Some(CallFailed);
      }
      return None;
    }

    method ExecuteMerge(node: Fields) returns (err: Option<RunErr>)
      requires Valid() && node.MergeNode?
      modifies `sources, `consumed, `sourceIDs, `calls
      ensures Valid() && RuntimeSpec.Step(Tab(), err) == StepOf(old(Tab()), node, dryRun, registry)
    {
      hide Sound, EmptyId;
      err := ValidateExistingSourceID(node.sourceA);
      if err.Some? {
        return;
      }
      err := ValidateExistingSourceID(node.sourceB);
      if err.Some? {
        return;
      }
      err := ValidateNewSourceID(node.id);
      if err.Some? {
        return;
      }
      MarkConsumed(node.sourceA);
      MarkConsumed(node.sourceB);
      var a, b := GetSource(node.sourceA), GetSource(node.sourceB);
      var merged := Nil;
      if !dryRun {
        var n := Invoke(MergeCall(a, b));
        merged := Out(n, 0);
      }
      AddSource(node.id, merged);
      return None;
    }

    /** Dupe and fanout differ only in the combinator that they call. */
    method ExecuteSplit(node: Fields) returns (err: Option<RunErr>)
      requires Valid() && (node.DupeNode? || node.FanoutNode?)
      modifies `sources, `consumed, `sourceIDs, `calls
      ensures Valid() && RuntimeSpec.Step(Tab(), err) == StepOf(old(Tab()), node, dryRun, registry)
    {
      hide Sound, EmptyId;
      err := ValidateExistingSourceID(node.source);
      if err.Some? {
        return;
      }
      err := ValidateNewSourceID(node.targetA);
      if err.Some? {
        return;
      }
      err := ValidateNewSourceID(node.targetB);
      if err.Some? {
        return;
      }
      var src := GetSource(node.source);
      MarkConsumed(node.source);
      var a, b := Nil, Nil;
      if !dryRun {
        var n := Invoke(if node.DupeNode? then DupeCall(src) else FanoutCall(src));
        a, b := Out(n, 0), Out(n, 1);
      }
      AddSource(node.targetA, a);
      AddSource(node.targetB, b);
      return None;
    }

    method ExecuteAppend(node: Fields) returns (err: Option<RunErr>)
      requires Valid() && node.AppendNode?
      modifies `sources, `consumed, `sourceIDs, `calls
      ensures Valid() && RuntimeSpec.Step(Tab(), err) == StepOf(old(Tab()), node, dryRun, registry)
    {
      hide Sound, EmptyId;
      err := ValidateExistingSourceID(node.source);
      if err.Some? {
        return;
      }
      err := ValidateExistingSourceID(node.target);
      if err.Some? {
        return;
      }
      MarkConsumed(node.source);
      var s, t := GetSource(node.source), GetSource(node.target);
      if dryRun {
        return None;
      }
      var n := Invoke(ConcatCall(t, s));
      ReplaceSource(node.target, Out(n, 0));
      return None;
    }

    /** Cut, tag and join; only tag goes on in a dry run. */
    method ExecuteWrap(node: Fields) returns (err: Option<RunErr>)
      requires Valid() && (node.CutNode? || node.TagNode? || node.JoinNode?)
      modifies `sources, `consumed, `sourceIDs, `calls
      ensures Valid() && RuntimeSpec.Step(Tab(), err) == StepOf(old(Tab()), node, dryRun, registry)
    {
      hide Sound, EmptyId;
      err := ValidateExistingSourceID(node.source);
      if err.Some? {
        return;
      }
      if dryRun && !node.TagNode? {
        return None;
      }
      var src := GetSource(node.source);
      var n := Invoke(
        if node.CutNode? then CutCall(src, node.delimiter, node.fieldSets)
        else if node.TagNode? then TagCall(src, node.tag)
        else JoinCall(src, node.patterns));
      ReplaceSource(node.source, Out(n, 0));
      return None;
    }

    method ExecuteNode(node: Fields) returns (err: Option<RunErr>)
      requires Valid()
      modifies `sources, `consumed, `sourceIDs, `calls
      ensures Valid() && RuntimeSpec.Step(Tab(), err) == StepOf(old(Tab()), node, dryRun, registry)
    {
      hide Sound;
      match node
      case EolNode => err := None;
      case SourceNode(_, _, _, _) => err := ExecuteSource(node);
      case SinkNode(_, _, _, _, _, _, _) => err := ExecuteSink(node);
      case MergeNode(_, _, _) => err := ExecuteMerge(node);
      case DupeNode(_, _, _) => err := ExecuteSplit(node);
      case FanoutNode(_, _, _) => err := ExecuteSplit(node);
      case AppendNode(_, _) => err := ExecuteAppend(node);
      case CutNode(_, _, _) => err := ExecuteWrap(node);
      case TagNode(_, _) => err := ExecuteWrap(node);
      case JoinNode(_, _) => err := ExecuteWrap(node);
    }

    /** Executes nodes up to the first error. No nodes are fine in any state. */
    method Execute(asts: seq<Node>) returns (err: Option<RunErr>)
      requires Valid()
      modifies `sources, `consumed, `sourceIDs, `calls
      ensures Valid()
      ensures
        if asts != [] && state != Started then err == Some(InvalidState) && Tab() == old(Tab())
        else
          var r := RunOf(old(Tab()), asts, dryRun, registry);
          Tab() == r.table && err == r.err
    {
      hide Sound, StepOf;
      if |asts| == 0 {
        return None;
      }
      if state != Started {
        return Some(InvalidState);
      }
      ghost var r := RunOf(Tab(), asts, dryRun, registry);
      for i := 0 to |asts|
        invariant Valid()
        invariant r.table == RunOf(Tab(), asts[i..], dryRun, registry).table
        invariant r.err == RunOf(Tab(), asts[i..], dryRun, registry).err
      {
        err := ExecuteNode(asts[i].fields);
        if err.Some? {
          return;
        }
        assert asts[i..][1..] == asts[i + 1..];
      }
      return None;
    }

    method DryRun(asts: seq<Node>) returns (err: Option<RunErr>)
      requires Valid()
      modifies `sources, `consumed, `sourceIDs, `calls, `dryRun
      ensures Valid() && !dryRun
      ensures
        if asts != [] && state != Started then err == Some(InvalidState) && Tab() == old(Tab())
        else
          var r := RunOf(old(Tab()), asts, true, registry);
          Tab() == r.table && err == r.err
    {
      hide Sound, RunOf;
      dryRun := true;
      err := Execute(asts);
      dryRun := false;
    }
  }
}
