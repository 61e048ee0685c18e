/** Merge behind dupe: both outputs of the dupe are the inputs of the merge, and an entry passes from one
    to the other in a single step. */
module DupeMerge {
  import opened Shuffles
  import D = Dupe
  import M = Merge

  datatype State = State(d: D.State, m: M.State)

  datatype Label =
    | Left(l: D.Label) | Right(r: M.Label)
    | PassA(e: Entry) | PassB(e: Entry) | PassEndA | PassEndB

  predicate Init(s: State) { D.Init(s.d) && M.Init(s.m) }

  /** The steps in which the readers of the outputs have no part. */
  predicate Inner(l: D.Label) { !l.DeliverA? && !l.DeliverB? && !l.EndA? && !l.EndB? }

  predicate Next(s: State, l: Label, s': State) {
    match l
    case Left(x) => Inner(x) && D.Next(s.d, x, s'.d) && s'.m == s.m
    case Right(x) => !M.FromSource(x) && M.Next(s.m, x, s'.m) && s'.d == s.d
    case PassA(e) => D.Next(s.d, D.DeliverA(e), s'.d) && M.Next(s.m, M.PullA(e), s'.m)
    case PassB(e) => D.Next(s.d, D.DeliverB(e), s'.d) && M.Next(s.m, M.PullB(e), s'.m)
    case PassEndA => D.Next(s.d, D.EndA, s'.d) && M.Next(s.m, M.StopA, s'.m)
    case PassEndB => D.Next(s.d, D.EndB, s'.d) && M.Next(s.m, M.StopB, s'.m)
  }

  ghost predicate Inv(s: State) {
    && D.Inv(s.d) && M.Inv(s.m)
    && s.m.a.pulled == s.d.a.delivered && s.m.b.pulled == s.d.b.delivered
    && s.m.a.closed == s.d.a.ended && s.m.b.closed == s.d.b.ended
  }

  lemma {:induction false} InitInv(s: State)
    requires Init(s)
    ensures Inv(s)
  {
  }

  lemma {:induction false} StepInv(s: State, l: Label, s': State)
    requires Inv(s) && Next(s, l, s')
    ensures Inv(s')
  {
    hide D.Inv, M.Inv;
    match l
    case Left(x) => D.StepInv(s.d, x, s'.d);
    case Right(x) => M.StepInv(s.m, x, s'.m);
    case PassA(e) =>
      D.StepInv(s.d, D.DeliverA(e), s'.d);
      M.StepInv(s.m, M.PullA(e), s'.m);
    case PassB(e) =>
      D.StepInv(s.d, D.DeliverB(e), s'.d);
      M.StepInv(s.m, M.PullB(e), s'.m);
    case PassEndA =>
      D.StepInv(s.d, D.EndA, s'.d);
      M.StepInv(s.m, M.StopA, s'.m);
    case PassEndB =>
      D.StepInv(s.d, D.EndB, s'.d);
      M.StepInv(s.m, M.StopB, s'.m);
  }

  ghost predicate IsRun(states: seq<State>, labels: seq<Label>) {
    && |states| == |labels| + 1 && Init(states[0])
    && forall i :: 0 <= i < |labels| ==> Next(states[i], labels[i], states[i + 1])
  }

  lemma {:induction false} RunInv(states: seq<State>, labels: seq<Label>, k: nat)
    requires IsRun(states, labels) && k < |states|
    ensures Inv(states[k])
  {
    hide Next, Init, Inv;
    if k == 0 {
      InitInv(states[0]);
    } else {
      RunInv(states, labels, k - 1);
      assert Next(states[k - 1], labels[k - 1], states[k - 1 + 1]);
      StepInv(states[k - 1], labels[k - 1], states[k]);
    }
  }

  /** When the end of the merged output is seen, it has delivered every entry of the source exactly twice,
      and nothing else. */
  lemma {:induction false} Doubles(states: seq<State>, labels: seq<Label>, k: nat)
    requires IsRun(states, labels) && k < |states| && states[k].m.ended
    ensures
      var got := multiset(M.Entries(states[k].m.delivered));
      forall e: Entry :: got[e] == if e < states[k].d.pulled then 2 else 0
  {
    hide IsRun, Untag, Of, M.Entries;
    RunInv(states, labels, k);
    var s := states[k];
    D.EmptyAccounts(s.d.a, s.d.pulled);
    D.EmptyAccounts(s.d.b, s.d.pulled);
    TraceParts(s.m.trace);
    assert M.Entries(s.m.delivered) + [] == M.Entries(s.m.delivered);
    forall e: Entry
      ensures multiset(M.Entries(s.m.delivered))[e] == if e < s.d.pulled then 2 else 0
    {
      CountOnce(s.d.a.delivered, s.d.pulled, e);
      CountOnce(s.d.b.delivered, s.d.pulled, e);
    }
  }

  lemma {:induction false} CountOnce(xs: seq<nat>, n: nat, e: nat)
    requires D.AllOnce(xs, n)
    ensures multiset(xs)[e] == if e < n then 1 else 0
  {
    if e < n {
      assert e in xs;
      var i :| 0 <= i < |xs| && xs[i] == e;
      assert xs == xs[..i] + [e] + xs[i + 1..];
      assert e !in xs[..i] && e !in xs[i + 1..];
    } else {
      assert e !in xs;
    }
  }

  /** Unlike a reader who finishes one output before the other, a merge behind a dupe is never stuck: the
      pipeline waits for nothing but its source. */
  lemma {:induction false} OnlyTheSourceIsWaitedFor(s: State) returns (l: Label, s': State)
    requires Inv(s) && !s.d.control.Pulling? && !s.m.ended
    ensures Next(s, l, s')
  {
    hide Untag, Of, M.Entries, D.Accounts, D.Start, D.Receive;
    if (!M.Waits(s.m.a) && !M.Waits(s.m.b)) || s.m.a.inHand || s.m.b.inHand || s.m.forwarder.Forward? {
      var r, m := MergeMoves(s.m);
      return Right(r), s.(m := m);
    }
    if M.Waits(s.m.a) && s.d.a.flying != {} {
      var e :| e in s.d.a.flying;
      l := PassA(e);
      s' := State(s.d.(a := D.Receive(s.d.a, e), releasing := s.d.releasing + 1),
                  s.m.(a := M.Feed(s.m.a.pulled + [e], true, false)));
      return;
    }
    if M.Waits(s.m.b) && s.d.b.flying != {} {
      var e :| e in s.d.b.flying;
      l := PassB(e);
      s' := State(s.d.(b := D.Receive(s.d.b, e), releasing := s.d.releasing + 1),
                  s.m.(b := M.Feed(s.m.b.pulled + [e], true, false)));
      return;
    }
    l, s' := DupeMoves(s);
  }

  /** With an entry in some hand, the merge can go on by itself. */
  lemma {:induction false} MergeMoves(s: M.State) returns (l: M.Label, s': M.State)
    requires M.Inv(s) && !s.ended
    requires (!M.Waits(s.a) && !M.Waits(s.b)) || s.a.inHand || s.b.inHand || s.forwarder.Forward?
    ensures M.Next(s, l, s') && !M.FromSource(l)
  {
    hide Untag, Of, M.Entries;
    if !M.Waits(s.a) && !M.Waits(s.b) {
      l, s' := M.OnlySourcesAreWaitedFor(s);
    } else if s.forwarder.Forward? {
      var e := s.forwarder.e;
      l := M.Deliver(e, s.next);
      s' := s.(forwarder := M.Select(s.forwarder.openA, s.forwarder.openB),
               delivered := s.delivered + [(e, s.next)], next := s.next + 1);
    } else if s.a.inHand {
      l := M.ReceiveA;
      s' := s.(a := s.a.(inHand := false),
               forwarder := M.Forward(M.Last(s.a), s.forwarder.openA, s.forwarder.openB),
               trace := s.trace + [(A, M.Last(s.a))]);
    } else {
      l := M.ReceiveB;
      s' := s.(b := s.b.(inHand := false),
               forwarder := M.Forward(M.Last(s.b), s.forwarder.openA, s.forwarder.openB),
               trace := s.trace + [(B, M.Last(s.b))]);
    }
  }

  /** Nothing is in flight, or nobody waits for it: the dupe goes on, or passes on its ends. */
  lemma {:induction false} DupeMoves(s: State) returns (l: Label, s': State)
    requires Inv(s) && !s.d.control.Pulling? && (M.Waits(s.m.a) || M.Waits(s.m.b))
    requires !s.m.a.inHand && !s.m.b.inHand
    requires M.Waits(s.m.a) ==> s.d.a.flying == {}
    requires M.Waits(s.m.b) ==> s.d.b.flying == {}
    ensures Next(s, l, s')
  {
    hide M.Inv, D.Start, D.Receive;
    NothingFlies(s.d, M.Waits(s.m.a), M.Waits(s.m.b));
    if 0 < s.d.releasing {
      l, s' := Left(D.Release), s.(d := s.d.(releasing := s.d.releasing - 1, permits := s.d.permits + 1));
    } else if s.d.control.Finished? {
      if M.Waits(s.m.a) {
        l, s' := PassEndA, State(s.d.(a := s.d.a.(ended := true)), s.m.(a := s.m.a.(closed := true)));
      } else {
        l, s' := PassEndB, State(s.d.(b := s.d.b.(ended := true)), s.m.(b := s.m.b.(closed := true)));
      }
    } else {
      var x, d := D.ControlMoves(s.d);
      l, s' := Left(x), s.(d := d);
    }
  }

  lemma {:induction false} NothingFlies(d: D.State, waitsA: bool, waitsB: bool)
    requires D.Inv(d) && (waitsA ==> d.a.flying == {}) && (waitsB ==> d.b.flying == {})
    requires (waitsA || d.a.ended) && (waitsB || d.b.ended)
    ensures d.a.flying == {} && d.b.flying == {}
  {
  }

  /** The debts of both sides; a step in which an entry or an end is passed on settles one of each. */
  function Debt(s: State): int {
    D.Debt(s.d) + M.Debt(s.m) + |s.m.a.pulled| + |s.m.b.pulled| + M.Stops(s.m)
  }

  lemma {:induction false} InitDebt(s: State)
    requires Init(s)
    ensures Debt(s) == 9
  {
  }

  lemma {:induction false} StepWork(s: State, l: Label, s': State)
    requires Inv(s) && Next(s, l, s')
    ensures Debt(s') == Debt(s) - 1
  {
    hide D.Inv, M.Inv, D.Next, M.Next, D.Debt, M.Debt;
    match l
    case Left(x) => D.StepWork(s.d, x, s'.d);
    case Right(y) => M.StepTakes(s.m, y, s'.m);
    case PassA(e) =>
      D.StepWork(s.d, D.DeliverA(e), s'.d);
      M.StepTakes(s.m, M.PullA(e), s'.m);
    case PassB(e) =>
      D.StepWork(s.d, D.DeliverB(e), s'.d);
      M.StepTakes(s.m, M.PullB(e), s'.m);
    case PassEndA =>
      D.StepWork(s.d, D.EndA, s'.d);
      M.StepTakes(s.m, M.StopA, s'.m);
    case PassEndB =>
      D.StepWork(s.d, D.EndB, s'.d);
      M.StepTakes(s.m, M.StopB, s'.m);
  }

  lemma {:induction false} RunDebt(states: seq<State>, labels: seq<Label>, k: nat)
    requires IsRun(states, labels) && k < |states|
    ensures k + Debt(states[k]) == 9
  {
    hide Next, Init, Inv, Debt;
    if k == 0 {
      InitDebt(states[0]);
    } else {
      RunDebt(states, labels, k - 1);
      RunInv(states, labels, k - 1);
      assert Next(states[k - 1], labels[k - 1], states[k - 1 + 1]);
      StepWork(states[k - 1], labels[k - 1], states[k]);
    }
  }

  lemma {:induction false} InMerge(s: State)
    requires Inv(s)
    ensures |s.m.a.pulled| + |s.m.b.pulled| + |s.d.a.flying| + |s.d.b.flying|
         == 2 * s.d.pulled - (if s.d.control.AcquireA? then 2 else if s.d.control.AcquireB? then 1 else 0)
  {
    hide M.Inv;
  }

  /** What has not reached the merge yet has two steps to go there. */
  function Work(s: State): nat {
    D.Work(s.d) + M.Work(s.m) + 2 * (|s.d.a.flying| + |s.d.b.flying|)
    + (if s.d.control.AcquireA? then 4 else if s.d.control.AcquireB? then 2 else 0)
  }

  /** Every run makes exactly eleven steps for each entry, one for the end of the source and nine behind it,
      but for those that are still to come: over a finite source, every run comes to its end. */
  lemma {:induction false} RunLength(states: seq<State>, labels: seq<Label>, k: nat)
    requires IsRun(states, labels) && k < |states|
    ensures
      var s := states[k];
      k + Work(s) == 9 + 11 * s.d.pulled + (if D.Stopped(s.d) then 1 else 0)
  {
    hide IsRun, Inv, M.Work, D.Work, D.Stopped;
    RunDebt(states, labels, k);
    RunInv(states, labels, k);
    InMerge(states[k]);
  }
}
