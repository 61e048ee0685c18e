/** From the text of a script to its execution. */
module Script {
  import opened Options
  import opened Syntax
  import opened ParseSpec
  import opened Grammar
  import opened Parser
  import opened Dsl
  import opened RuntimeSpec
  import opened Runtime
  import opened Meaning
  import opened Simulation

  datatype ScriptErr = ParseFailed(parseErr: ParseErr) | RunFailed(runErr: RunErr)

  /** Parses a text and executes its nodes. On a fresh runtime whose plugins do not fail, that succeeds
      exactly if the grammar derives the text within the rules of scope, no cut names an unknown iterator
      and no append names a consumed target; and the live identifiers then yield, and the sinks were given,
      what the statements mean. */
  method ExecuteString(r: Runtime, text: string, eng: Engine) returns (err: Option<ScriptErr>)
    requires r.Valid() && r.state == Started && !r.dryRun && r.Tab() == NO_TABLE
    modifies r
    ensures r.Valid()
    ensures NoPluginErrs(r.registry) ==>
      (err.None? <==> exists lines :: Derives(lines, text, eng) && NoneOffends(Stmts(lines), NO_SCOPE, |lines|))
    ensures err.Some? && err.value.ParseFailed? ==> r.Tab() == NO_TABLE && !exists lines :: Derives(lines, text, eng)
    ensures forall lines :: err.None? && Derives(lines, text, eng) ==>
      r.Tab() == RunOf(NO_TABLE, Nodes(Stmts(lines)), false, r.registry).table
      && Follows(r.Tab(), AfterAll(Stmts(lines), NO_SCOPE))
    ensures forall lines, w :: err.None? && Derives(lines, text, eng) ==>
      Does(r.Tab(), MeansAll(Stmts(lines), NO_FLOW, w), w)
  {
    hide *;
    var nodes, parseErr := ParseString(text, eng);
    if parseErr.Some? {
      return Some(ParseFailed(parseErr.value));
    }
    ParsedTextRuns(text, eng, false, r.registry);
    DerivesIff(text, eng);
    var runErr := r.Execute(nodes);
    if runErr.Some? {
      return Some(RunFailed(runErr.value));
    }
    AllMeant(text, eng, r.registry);
    return None;
  }

  /** A run that ends without an error has done all that the statements mean. */
  lemma {:induction false} AllMeant(text: string, eng: Engine, env: Env)
    requires ReadScript(TokensOf(text), NO_SCOPE, eng).Done?
    requires RunOf(NO_TABLE, Nodes(ReadScript(TokensOf(text), NO_SCOPE, eng).stmts), false, env).err.None?
    ensures
      var stmts := ReadScript(TokensOf(text), NO_SCOPE, eng).stmts;
      forall w :: Does(RunOf(NO_TABLE, Nodes(stmts), false, env).table, MeansAll(stmts, NO_FLOW, w), w)
  {
    hide *;
    var stmts := ReadScript(TokensOf(text), NO_SCOPE, eng).stmts;
    NodesLength(stmts);
    FreshFollows();
    assert stmts[..|stmts|] == stmts;
    forall w
      ensures Does(RunOf(NO_TABLE, Nodes(stmts), false, env).table, MeansAll(stmts, NO_FLOW, w), w)
    {
      FreshDoes(w);
      ParsedTextMeans(text, eng, env, w, |stmts|);
    }
  }
}
