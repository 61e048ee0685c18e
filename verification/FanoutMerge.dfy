/** Merge behind fanout: both outputs of the fanout are the inputs of the merge, and an entry passes from
    one to the other in a single step. */
module FanoutMerge {
  import opened Options
  import opened Shuffles
  import F = Fanout
  import M = Merge

  datatype State = State(f: F.State, m: M.State)

  datatype Label =
    | Left(l: F.Label) | Right(r: M.Label)
    | PassA(e: Entry) | PassB(e: Entry) | PassEndA | PassEndB

  predicate Init(s: State) { F.Init(s.f) && M.Init(s.m) }

  /** The steps in which the readers of the outputs have no part. */
  predicate Inner(l: F.Label) { l.Pull? || l.Stop? || l.DoCloseA? || l.DoCloseB? }

  predicate Next(s: State, l: Label, s': State) {
    match l
    case Left(x) => Inner(x) && F.Next(s.f, x, s'.f) && s'.m == s.m
    case Right(x) => !M.FromSource(x) && M.Next(s.m, x, s'.m) && s'.f == s.f
    case PassA(e) => F.Next(s.f, F.GiveA(e), s'.f) && M.Next(s.m, M.PullA(e), s'.m)
    case PassB(e) => F.Next(s.f, F.GiveB(e), s'.f) && M.Next(s.m, M.PullB(e), s'.m)
    case PassEndA => F.Next(s.f, F.EndA, s'.f) && M.Next(s.m, M.StopA, s'.m)
    case PassEndB => F.Next(s.f, F.EndB, s'.f) && M.Next(s.m, M.StopB, s'.m)
  }

  ghost predicate Inv(s: State) {
    && F.Inv(s.f) && M.Inv(s.m)
    && s.m.a.pulled == Of(s.f.trace, A) && s.m.b.pulled == Of(s.f.trace, B)
    && s.m.a.closed == s.f.a.ended && s.m.b.closed == s.f.b.ended
  }

  lemma {:induction false} InitInv(s: State)
    requires Init(s)
    ensures Inv(s)
  {
  }

  lemma {:induction false} StepInv(s: State, l: Label, s': State)
    requires Inv(s) && Next(s, l, s')
    ensures Inv(s')
  {
    hide F.Inv, M.Inv, F.Next, M.Next, Of;
    var x := FanoutStep(l);
    var y := MergeStep(l);
    if x.Some? {
      F.StepInv(s.f, x.value, s'.f);
      F.Effect(s.f, x.value, s'.f);
    }
    if y.Some? {
      M.StepInv(s.m, y.value, s'.m);
      M.Effect(s.m, y.value, s'.m);
    }
    if l.PassA? {
      TraceAppend(s.f.trace, A, l.e);
    } else if l.PassB? {
      TraceAppend(s.f.trace, B, l.e);
    }
  }

  /** The part of a step that the fanout takes. */
  function FanoutStep(l: Label): Option<F.Label> {
    match l
    case Left(x) => Some(x)
    case Right(_) => None
    case PassA(e) => Some(F.GiveA(e))
    case PassB(e) => Some(F.GiveB(e))
    case PassEndA => Some(F.EndA)
    case PassEndB => Some(F.EndB)
  }

  /** The part of a step that the merge takes. */
  function MergeStep(l: Label): Option<M.Label> {
    match l
    case Left(_) => None
    case Right(y) => Some(y)
    case PassA(e) => Some(M.PullA(e))
    case PassB(e) => Some(M.PullB(e))
    case PassEndA => Some(M.StopA)
    case PassEndB => Some(M.StopB)
  }

  ghost predicate IsRun(states: seq<State>, labels: seq<Label>)
    ensures IsRun(states, labels) ==> |states| == |labels| + 1
  {
    && |states| == |labels| + 1 && Init(states[0])
    && forall i :: 0 <= i < |labels| ==> Next(states[i], labels[i], states[i + 1])
  }

  lemma {:induction false} RunInv(states: seq<State>, labels: seq<Label>, k: nat)
    requires IsRun(states, labels) && k < |states|
    ensures Inv(states[k])
  {
    hide Next, Init, Inv;
    if k == 0 {
      InitInv(states[0]);
    } else {
      RunInv(states, labels, k - 1);
      assert Next(states[k - 1], labels[k - 1], states[k - 1 + 1]);
      StepInv(states[k - 1], labels[k - 1], states[k]);
    }
  }

  /** When the end of the merged output is seen, it has delivered every entry of the source as often as
      the source did, and nothing else. */
  lemma {:induction false} Conserves(states: seq<State>, labels: seq<Label>, k: nat)
    requires IsRun(states, labels) && k < |states| && states[k].m.ended
    ensures multiset(M.Entries(states[k].m.delivered)) == multiset(states[k].f.pulled)
  {
    hide IsRun, Untag, Of, M.Entries;
    RunInv(states, labels, k);
    var s := states[k];
    TraceParts(s.m.trace);
    TraceParts(s.f.trace);
    assert M.Entries(s.m.delivered) + [] == M.Entries(s.m.delivered);
  }

  /** The pipeline waits for nothing but its source. */
  lemma {:induction false} OnlyTheSourceIsWaitedFor(s: State) returns (l: Label, s': State)
    requires Inv(s) && !s.f.control.Pulling? && !s.m.ended
    ensures Next(s, l, s')
  {
    hide Untag, Of, M.Entries;
    if !M.Waits(s.m.a) && !M.Waits(s.m.b) {
      var r, m := M.OnlySourcesAreWaitedFor(s.m);
      return Right(r), s.(m := m);
    }
    match s.f.control
    case CloseA => l, s' := Left(F.DoCloseA), s.(f := s.f.(control := F.CloseB, a := s.f.a.(closed := true)));
    case CloseB => l, s' := Left(F.DoCloseB), s.(f := s.f.(control := F.Finished, b := s.f.b.(closed := true)));
    case Offering => l, s' := Offer(s);
    case Finished =>
      if M.Waits(s.m.a) {
        l, s' := PassEndA, State(s.f.(a := s.f.a.(ended := true)), s.m.(a := s.m.a.(closed := true)));
      } else {
        l, s' := PassEndB, State(s.f.(b := s.f.b.(ended := true)), s.m.(b := s.m.b.(closed := true)));
      }
  }

  lemma {:induction false} Offer(s: State) returns (l: Label, s': State)
    requires Inv(s) && s.f.control.Offering? && (M.Waits(s.m.a) || M.Waits(s.m.b))
    ensures Next(s, l, s')
  {
    hide Untag, Of, M.Inv;
    var e := s.f.pulled[|s.f.pulled| - 1];
    if M.Waits(s.m.a) {
      l := PassA(e);
      s' := State(s.f.(control := F.Pulling, trace := s.f.trace + [(A, e)]),
                  s.m.(a := M.Feed(s.m.a.pulled + [e], true, false)));
    } else {
      l := PassB(e);
      s' := State(s.f.(control := F.Pulling, trace := s.f.trace + [(B, e)]),
                  s.m.(b := M.Feed(s.m.b.pulled + [e], true, false)));
    }
  }

  /** The debts of both sides; a step in which an entry or an end is passed on settles one of each. */
  function Debt(s: State): int {
    F.Debt(s.f) + M.Debt(s.m) + |s.m.a.pulled| + |s.m.b.pulled| + M.Stops(s.m)
  }

  lemma {:induction false} InitDebt(s: State)
    requires Init(s)
    ensures Debt(s) == 8
  {
  }

  lemma {:induction false} StepWork(s: State, l: Label, s': State)
    requires Inv(s) && Next(s, l, s')
    ensures Debt(s') == Debt(s) - 1
  {
    hide F.Inv, M.Inv, F.Next, M.Next, F.Debt, M.Debt, Of;
    var x := FanoutStep(l);
    var y := MergeStep(l);
    if x.Some? {
      F.StepWork(s.f, x.value, s'.f);
    }
    if y.Some? {
      M.StepTakes(s.m, y.value, s'.m);
    }
  }

  lemma {:induction false} RunDebt(states: seq<State>, labels: seq<Label>, k: nat)
    requires IsRun(states, labels) && k < |states|
    ensures k + Debt(states[k]) == 8
  {
    hide Next, Init, Inv, Debt;
    if k == 0 {
      InitDebt(states[0]);
    } else {
      RunDebt(states, labels, k - 1);
      RunInv(states, labels, k - 1);
      assert Next(states[k - 1], labels[k - 1], states[k - 1 + 1]);
      StepWork(states[k - 1], labels[k - 1], states[k]);
    }
  }

  lemma {:induction false} PartLengths(t: Trace)
    ensures |Untag(t)| == |t| && |Of(t, A)| + |Of(t, B)| == |t|
  {
    if t != [] {
      PartLengths(t[..|t| - 1]);
    }
  }

  lemma {:induction false} InMerge(s: State)
    requires Inv(s)
    ensures |s.m.a.pulled| + |s.m.b.pulled| == |s.f.pulled| - (if s.f.control.Offering? then 1 else 0)
  {
    hide M.Inv, Untag, Of;
    PartLengths(s.f.trace);
  }

  /** The entry on offer still has two steps to go in the merge. */
  function Work(s: State): nat {
    F.Work(s.f) + M.Work(s.m) + (if s.f.control.Offering? then 2 else 0)
  }

  /** Every run makes exactly four steps for each entry, one for the end of the source and eight behind it,
      but for those that are still to come: over a finite source, every run comes to its end. */
  lemma {:induction false} RunLength(states: seq<State>, labels: seq<Label>, k: nat)
    requires IsRun(states, labels) && k < |states|
    ensures
      var s := states[k];
      k + Work(s) == 8 + 4 * |s.f.pulled| + (if F.Stopped(s.f) then 1 else 0)
  {
    hide IsRun, Inv, M.Work, F.Work;
    RunDebt(states, labels, k);
    RunInv(states, labels, k);
    InMerge(states[k]);
  }

  // ----- How far entries can get out of order --------------------------------------------------

  /** At most four entries are ever on their way. */
  lemma {:induction false} InFlight(states: seq<State>, labels: seq<Label>, k: nat)
    requires IsRun(states, labels) && k < |states|
    ensures |states[k].f.pulled| <= |states[k].m.delivered| + 4
  {
    hide IsRun, Untag, Of, M.Entries, F.Inv;
    RunInv(states, labels, k);
    InMerge(states[k]);
    PartLengths(states[k].m.trace);
  }

  /** A run makes one more step. */
  lemma {:induction false} Then(states: seq<State>, labels: seq<Label>, l: Label, s: State)
    returns (states': seq<State>, labels': seq<Label>)
    requires IsRun(states, labels) && Next(states[|labels|], l, s)
    ensures IsRun(states', labels') && states'[|labels'|] == s && labels' == labels + [l]
  {
    hide Next, Init;
    states', labels' := states + [s], labels + [l];
    forall i | 0 <= i < |labels'|
      ensures Next(states'[i], labels'[i], states'[i + 1])
    {
      if i < |labels| {
        assert Next(states[i], labels[i], states[i + 1]);
      }
    }
  }

  /** The first entry waits in the hand of one feeder; all others have come through the other one. */
  ghost predicate HeldBack(s: State, e: Entry, es: seq<Entry>) {
    && s.f.control.Pulling? && s.f.pulled == [e] + es
    && s.m.a == M.Feed([e], true, false) && s.m.b == M.Feed(es, false, false) && s.m.forwarder == M.BOTH_OPEN
    && s.m.next == |s.m.delivered| && M.Entries(s.m.delivered) == es
  }

  lemma {:induction false} HoldBack(e: Entry, es: seq<Entry>) returns (states: seq<State>, labels: seq<Label>)
    ensures IsRun(states, labels) && HeldBack(states[|labels|], e, es)
  {
    hide IsRun, M.Entries;
    if es == [] {
      states, labels := NoSteps();
      var s := states[|labels|];
      var s1 := s.(f := s.f.(control := F.Offering, pulled := [e]));
      var s2 := State(s1.f.(control := F.Pulling, trace := [(A, e)]), s.m.(a := M.Feed([e], true, false)));
      states, labels := Then(states, labels, Left(F.Pull(e)), s1);
      states, labels := Then(states, labels, PassA(e), s2);
    } else {
      var front, last := es[..|es| - 1], es[|es| - 1];
      states, labels := HoldBack(e, front);
      states, labels := OneMore(states, labels, e, front, last);
      assert front + [last] == es;
    }
  }

  lemma {:induction false} NoSteps() returns (states: seq<State>, labels: seq<Label>)
    ensures IsRun(states, labels) && M.Entries([]) == []
    ensures states[|labels|] == State(
      F.State(F.Pulling, [], [], F.OPEN, F.OPEN),
      M.State(M.Feed([], false, false), M.Feed([], false, false), M.BOTH_OPEN, [], [], 0, false))
  {
    states, labels := [State(
      F.State(F.Pulling, [], [], F.OPEN, F.OPEN),
      M.State(M.Feed([], false, false), M.Feed([], false, false), M.BOTH_OPEN, [], [], 0, false))], [];
  }

  lemma {:induction false} OneMore(states: seq<State>, labels: seq<Label>, e: Entry, es: seq<Entry>, x: Entry)
    returns (states': seq<State>, labels': seq<Label>)
    requires IsRun(states, labels) && HeldBack(states[|labels|], e, es)
    ensures IsRun(states', labels') && HeldBack(states'[|labels'|], e, es + [x])
  {
    hide IsRun, M.Entries;
    var s := states[|labels|];
    var s1 := s.(f := s.f.(control := F.Offering, pulled := s.f.pulled + [x]));
    var s2 := State(s1.f.(control := F.Pulling, trace := s.f.trace + [(B, x)]),
                    s.m.(b := M.Feed(es + [x], true, false)));
    var s3 := s2.(m := s2.m.(b := M.Feed(es + [x], false, false), forwarder := M.Forward(x, true, true),
                             trace := s.m.trace + [(B, x)]));
    var out := (x, s.m.next);
    var s4 := s3.(m := s3.m.(forwarder := M.BOTH_OPEN, delivered := s.m.delivered + [out], next := s.m.next + 1));
    states', labels' := Then(states, labels, Left(F.Pull(x)), s1);
    states', labels' := Then(states', labels', PassB(x), s2);
    states', labels' := Then(states', labels', Right(M.ReceiveB), s3);
    states', labels' := Then(states', labels', Right(M.Deliver(x, s.m.next)), s4);
    M.EntriesAppend(s.m.delivered, out);
    assert [e] + es + [x] == [e] + (es + [x]);
  }

  /** But each of them can be overtaken by any number of others: for every first entry and all that follow
      it there is a run that delivers it last, and the others in their order. */
  lemma {:induction false} OvertakenByAll(e: Entry, es: seq<Entry>) returns (states: seq<State>, labels: seq<Label>)
    ensures IsRun(states, labels)
    ensures states[|labels|].f.pulled == [e] + es && M.Entries(states[|labels|].m.delivered) == es + [e]
  {
    hide IsRun, M.Entries;
    states, labels := HoldBack(e, es);
    var s := states[|labels|];
    var s1 := s.(m := s.m.(a := M.Feed([e], false, false), forwarder := M.Forward(e, true, true),
                           trace := s.m.trace + [(A, e)]));
    var out := (e, s.m.next);
    var s2 := s1.(m := s1.m.(forwarder := M.BOTH_OPEN, delivered := s.m.delivered + [out], next := s.m.next + 1));
    states, labels := Then(states, labels, Right(M.ReceiveA), s1);
    states, labels := Then(states, labels, Right(M.Deliver(e, s.m.next)), s2);
    M.EntriesAppend(s.m.delivered, out);
  }
}
