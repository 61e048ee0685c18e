/** Which check refuses a node, in which order, and what a node that is refused or fails leaves behind. */
module Checks {
  import opened Options
  import opened Syntax
  import opened RuntimeSpec
  import opened Dataflow
  import opened Simulation

  // ----- The runtime's checks, in order --------------------------------------------------------

  /** A check of an identifier, as one to be used or as a new one. */
  datatype Check = Used(id: string) | Fresh(id: string)

  function ChecksOf(node: Fields): seq<Check> {
    match node
    case EolNode => []
    case SourceNode(id, _, _, _) => [Fresh(id)]
    case SinkNode(src, _, _, _, _, _, _) => [Used(src)]
    case MergeNode(a, b, id) => [Used(a), Used(b), Fresh(id)]
    case DupeNode(src, a, b) => [Used(src), Fresh(a), Fresh(b)]
    case AppendNode(src, target) => [Used(src), Used(target)]
    case CutNode(_, src, _) => [Used(src)]
    case FanoutNode(src, a, b) => [Used(src), Fresh(a), Fresh(b)]
    case TagNode(src, _) => [Used(src)]
    case JoinNode(src, _) => [Used(src)]
  }

  function FaultAt(t: Table, c: Check): Option<RunErr>
    requires Sound(t)
  {
    if c.Used? then OldFault(t, c.id) else NewFault(t, c.id)
  }

  /** The error of the first check that fails. */
  function FirstFault(t: Table, checks: seq<Check>): Option<RunErr>
    requires Sound(t)
  {
    if checks == [] then None
    else if FaultAt(t, checks[0]).Some? then FaultAt(t, checks[0])
    else FirstFault(t, checks[1..])
  }

  predicate Refused(err: Option<RunErr>) { err.Some? && IsIdErr(err.value) }

  lemma {:induction false} FaultsAreIdErrs(t: Table, id: string)
    requires Sound(t)
    ensures OldFault(t, id).Some? ==> Refused(OldFault(t, id))
    ensures NewFault(t, id).Some? ==> Refused(NewFault(t, id))
  {
  }

  lemma {:induction false} OneCheck(t: Table, c: Check)
    requires Sound(t)
    ensures FirstFault(t, [c]) == FaultAt(t, c)
  {
    assert [c][1..] == [];
  }

  lemma {:induction false} TwoChecks(t: Table, c: Check, d: Check)
    requires Sound(t)
    ensures FirstFault(t, [c, d]) == if FaultAt(t, c).Some? then FaultAt(t, c) else FaultAt(t, d)
  {
    hide FaultAt;
    assert [c, d][1..] == [d];
    OneCheck(t, d);
  }

  lemma {:induction false} ThreeChecks(t: Table, c: Check, d: Check, e: Check)
    requires Sound(t)
    ensures FirstFault(t, [c, d, e])
      == if FaultAt(t, c).Some? then FaultAt(t, c)
         else if FaultAt(t, d).Some? then FaultAt(t, d) else FaultAt(t, e)
  {
    hide FaultAt;
    assert [c, d, e][1..] == [d, e];
    TwoChecks(t, d, e);
  }

  /** A node is refused for the first of its checks that fails, and the table is then as it was. */
  lemma {:induction false} RefusedForFirst(t: Table, node: Fields, dry: bool, env: Env)
    requires Sound(t)
    ensures
      var r := StepOf(t, node, dry, env);
      && FirstFault(t, ChecksOf(node)) == (if Refused(r.err) then r.err else None)
      && (Refused(r.err) ==> r.table == t)
  {
    hide Sound, OldFault, NewFault, FirstFault, Add, Replace, Mark, Made;
    forall c | c in ChecksOf(node)
      ensures FaultAt(t, c).Some? ==> Refused(FaultAt(t, c))
    {
      FaultsAreIdErrs(t, c.id);
    }
    match node
    case EolNode => NoChecks(t);
    case SourceNode(id, _, _, _) => OneCheck(t, Fresh(id)); FaultsAreIdErrs(t, id);
    case SinkNode(src, _, _, _, _, _, _) => OneCheck(t, Used(src)); FaultsAreIdErrs(t, src);
    case MergeNode(a, b, id) => ThreeChecks(t, Used(a), Used(b), Fresh(id)); ThreeIds(t, a, b, id);
    case DupeNode(src, a, b) => ThreeChecks(t, Used(src), Fresh(a), Fresh(b)); ThreeIds(t, src, a, b);
    case AppendNode(src, target) => TwoChecks(t, Used(src), Used(target)); ThreeIds(t, src, target, target);
    case CutNode(_, src, _) => OneCheck(t, Used(src)); FaultsAreIdErrs(t, src);
    case FanoutNode(src, a, b) => ThreeChecks(t, Used(src), Fresh(a), Fresh(b)); ThreeIds(t, src, a, b);
    case TagNode(src, _) => OneCheck(t, Used(src)); FaultsAreIdErrs(t, src);
    case JoinNode(src, _) => OneCheck(t, Used(src)); FaultsAreIdErrs(t, src);
  }

  lemma {:induction false} NoChecks(t: Table)
    requires Sound(t)
    ensures FirstFault(t, []) == None
  {
  }

  lemma {:induction false} ThreeIds(t: Table, a: string, b: string, c: string)
    requires Sound(t)
    ensures forall id | id in [a, b, c] ::
      && (OldFault(t, id).Some? ==> Refused(OldFault(t, id)))
      && (NewFault(t, id).Some? ==> Refused(NewFault(t, id)))
  {
    hide OldFault, NewFault;
    FaultsAreIdErrs(t, a);
    FaultsAreIdErrs(t, b);
    FaultsAreIdErrs(t, c);
  }

  // ----- The parser's checks against them ------------------------------------------------------

  /** What the parser demands and the runtime does not: different names for the two ends of a node, known
      identifiers as arguments, and a new name for an asynchronous sink. */
  predicate OwnRules(s: Stmt, sc: Scope) {
    match s
    case Source(id, _, _, args) => ArgsDefined(args, sc.sources + {id} + sc.sinks)
    case Sink(_, _, _, args) => ArgsDefined(args, sc.sources + sc.sinks)
    case AsyncSink(_, id, _, _, args) =>
      id !in sc.sources + sc.sinks && ArgsDefined(args, sc.sources + sc.sinks + {id})
    case Merge(a, b, _) => a != b
    case Dupe(_, a, b) => a != b
    case Fanout(_, a, b) => a != b
    case _ => true
  }

  lemma {:induction false} PassedChecks(s: Stmt, sc: Scope, t: Table)
    requires NamesOk(s) && Sound(t) && Follows(t, sc) && OwnRules(s, sc)
    requires FirstFault(t, ChecksOf(FieldsOf(s))).None?
    ensures InScope(s, sc)
  {
    hide Sound, Follows, EmptyId, OldFault, NewFault, FirstFault, Escape, Escapes, FieldSets, ArgsOf, ArgsDefined;
    forall id | id in Names(s)
      ensures OldFault(t, id).None? ==> Live(id, sc)
      ensures NewFault(t, id).None? ==> id !in sc.sources
    {
      FaultsOf(t, sc, id);
    }
    match s
    case Blank =>
    case Source(id, _, _, _) => OneCheck(t, Fresh(id));
    case Sink(src, _, _, _) => OneCheck(t, Used(src));
    case AsyncSink(src, _, _, _, _) => OneCheck(t, Used(src));
    case Merge(a, b, id) => ThreeChecks(t, Used(a), Used(b), Fresh(id));
    case Dupe(src, a, b) => ThreeChecks(t, Used(src), Fresh(a), Fresh(b));
    case Append(src, target) => TwoChecks(t, Used(src), Used(target));
    case Cut(_, src, _) => OneCheck(t, Used(src));
    case Fanout(src, a, b) => ThreeChecks(t, Used(src), Fresh(a), Fresh(b));
    case Tag(src, _) => OneCheck(t, Used(src));
    case Join(src, _) => OneCheck(t, Used(src));
  }

  /** But for its own rules, the parser takes a statement exactly if the runtime takes its identifiers, or if
      it is one of the two kinds that offend. */
  lemma {:induction false} ParserChecksIff(s: Stmt, sc: Scope, t: Table, dry: bool, env: Env)
    requires NamesOk(s) && Sound(t) && Follows(t, sc)
    ensures InScope(s, sc) && !Offends(s, sc)
      <==> OwnRules(s, sc) && !Refused(StepOf(t, FieldsOf(s), dry, env).err)
  {
    hide Sound, Follows, NamesOk, StepOf, FieldsOf, InScope, Offends, OwnRules, ChecksOf, FirstFault;
    if InScope(s, sc) {
      StepFollows(s, sc, t, dry, env);
      ScopeHasOwnRules(s, sc);
    } else if OwnRules(s, sc) {
      RefusedForFirst(t, FieldsOf(s), dry, env);
      if FirstFault(t, ChecksOf(FieldsOf(s))).None? {
        PassedChecks(s, sc, t);
      }
    }
  }

  lemma {:induction false} ScopeHasOwnRules(s: Stmt, sc: Scope)
    requires InScope(s, sc)
    ensures OwnRules(s, sc)
  {
    hide ArgsDefined;
  }

  // ----- What a failing node leaves behind -----------------------------------------------------

  /** A node that fails for its plugin leaves no new identifier; a sink has consumed its source by then. It
      has made its call exactly if it is the call that fails. */
  lemma {:induction false} FailedStep(t: Table, sc: Scope, node: Fields, dry: bool, env: Env)
    requires Sound(t) && Follows(t, sc)
    requires StepOf(t, node, dry, env).err.Some? && !Refused(StepOf(t, node, dry, env).err)
    ensures
      var r := StepOf(t, node, dry, env);
      && (r.err == Some(UnknownSource) || r.err == Some(UnknownSink) || r.err == Some(CallFailed))
      && |r.table.calls| == |t.calls| + (if r.err == Some(CallFailed) then 1 else 0)
      && Follows(r.table, if node.SinkNode? then sc.(consumed := sc.consumed + {node.source}) else sc)
  {
    hide Sound, Follows, OldFault, NewFault, Add, Replace;
    forall id
      ensures OldFault(t, id).Some? ==> Refused(OldFault(t, id))
      ensures NewFault(t, id).Some? ==> Refused(NewFault(t, id))
    {
      FaultsAreIdErrs(t, id);
    }
    if node.SourceNode? {
      SameFollows(t, sc, dry, SourceCall(node.qualifier, node.class_, node.args));
    } else if node.SinkNode? {
      FaultsOf(t, sc, node.source);
      MarkFollows(t, sc, node.source);
      var c := SinkCall(GetOrNil(t, node.source), node.qualifier, node.class_, node.args);
      SameFollows(Mark(t, node.source), sc.(consumed := sc.consumed + {node.source}), dry, c);
    }
  }

  // ----- What a dry run does for real ----------------------------------------------------------

  function TagsIn(nodes: seq<Node>): nat {
    if nodes == [] then 0 else (if nodes[0].fields.TagNode? then 1 else 0) + TagsIn(nodes[1..])
  }

  /** A dry run makes the calls of the tags that it executes, one each, and no others. */
  lemma {:induction false} DryRunTags(t: Table, nodes: seq<Node>, env: Env)
    requires Sound(t)
    ensures
      var r := RunOf(t, nodes, true, env);
      && t.calls <= r.table.calls
      && |r.table.calls| == |t.calls| + TagsIn(nodes[..r.done])
      && forall k :: |t.calls| <= k < |r.table.calls| ==> r.table.calls[k].TagCall?
    decreases nodes
  {
    hide Sound, StepOf;
    if nodes != [] {
      var s := StepOf(t, nodes[0].fields, true, env);
      DryStepTags(t, nodes[0].fields, env);
      if s.err.None? {
        DryRunTags(s.table, nodes[1..], env);
        var r := RunOf(t, nodes, true, env);
        assert nodes[..r.done][1..] == nodes[1..][..r.done - 1];
      }
    }
  }

  lemma {:induction false} DryStepTags(t: Table, node: Fields, env: Env)
    requires Sound(t)
    ensures
      var r := StepOf(t, node, true, env);
      && t.calls <= r.table.calls
      && |r.table.calls| == |t.calls| + (if r.err.None? && node.TagNode? then 1 else 0)
      && forall k :: |t.calls| <= k < |r.table.calls| ==> r.table.calls[k].TagCall?
  {
    hide Sound, OldFault, NewFault;
  }
}
