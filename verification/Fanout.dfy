/** The fanout protocol: one goroutine that offers each entry to two readers at once. */
module Fanout {
  import opened Shuffles

  datatype Control = Pulling | Offering | CloseA | CloseB | Finished

  datatype Port = Port(closed: bool, ended: bool)

  /** trace records which reader took which entry, in the order in which they did; it is history only. */
  datatype State = State(control: Control, pulled: seq<Entry>, trace: Trace, a: Port, b: Port)

  datatype Label = Pull(e: Entry) | Stop | GiveA(e: Entry) | GiveB(e: Entry) | DoCloseA | DoCloseB | EndA | EndB

  predicate Init(s: State) {
    s == State(Pulling, [], [], Port(false, false), Port(false, false))
  }

  /** The entry is the one on offer. */
  predicate Offers(s: State, e: Entry) {
    s.control.Offering? && s.pulled != [] && e == s.pulled[|s.pulled| - 1]
  }

  /** One step; Stop is the end of the source or an error, after which the rest of it is drained. */
  predicate Next(s: State, l: Label, s': State) {
    match l
    case Pull(e) => s.control.Pulling? && s' == s.(control := Offering, pulled := s.pulled + [e])
    case Stop => s.control.Pulling? && s' == s.(control := CloseA)
    case GiveA(e) => Offers(s, e) && s' == s.(control := Pulling, trace := s.trace + [(A, e)])
    case GiveB(e) => Offers(s, e) && s' == s.(control := Pulling, trace := s.trace + [(B, e)])
    case DoCloseA => s.control.CloseA? && s' == s.(control := CloseB, a := s.a.(closed := true))
    case DoCloseB => s.control.CloseB? && s' == s.(control := Finished, b := s.b.(closed := true))
    case EndA => s.a.closed && !s.a.ended && s' == s.(a := s.a.(ended := true))
    case EndB => s.b.closed && !s.b.ended && s' == s.(b := s.b.(ended := true))
  }

  ghost predicate Inv(s: State) {
    && (s.control.Offering? ==> s.pulled != [])
    && Untag(s.trace) == (if s.control.Offering? then s.pulled[..|s.pulled| - 1] else s.pulled)
    && (s.a.closed <==> s.control.CloseB? || s.control.Finished?)
    && (s.b.closed <==> s.control.Finished?)
    && (s.a.ended ==> s.a.closed) && (s.b.ended ==> s.b.closed)
  }

  lemma {:induction false} InitInv(s: State)
    requires Init(s)
    ensures Inv(s)
  {
  }

  lemma {:induction false} StepInv(s: State, l: Label, s': State)
    requires Inv(s) && Next(s, l, s')
    ensures Inv(s')
  {
    hide Untag, Offers;
    match l
    case GiveA(e) => GiveInv(s, A, e);
    case GiveB(e) => GiveInv(s, B, e);
    case _ =>
  }

  lemma {:induction false} GiveInv(s: State, side: Side, e: Entry)
    requires Inv(s) && Offers(s, e)
    ensures Inv(s.(control := Pulling, trace := s.trace + [(side, e)]))
  {
    hide Untag, Of;
    TraceAppend(s.trace, side, e);
    assert s.pulled == s.pulled[..|s.pulled| - 1] + [e];
  }

  /** What a step does to the outputs. */
  lemma {:induction false} Effect(s: State, l: Label, s': State)
    requires Next(s, l, s')
    ensures s'.trace == (if l.GiveA? then s.trace + [(A, l.e)] else if l.GiveB? then s.trace + [(B, l.e)] else s.trace)
    ensures s'.a.ended == (l.EndA? || s.a.ended) && s'.b.ended == (l.EndB? || s.b.ended)
  {
  }

  ghost predicate IsRun(states: seq<State>, labels: seq<Label>)
    ensures IsRun(states, labels) ==> |states| == |labels| + 1
  {
    && |states| == |labels| + 1 && Init(states[0])
    && forall i :: 0 <= i < |labels| ==> Next(states[i], labels[i], states[i + 1])
  }

  lemma {:induction false} RunInv(states: seq<State>, labels: seq<Label>, k: nat)
    requires IsRun(states, labels) && k < |states|
    ensures Inv(states[k])
  {
    hide Next, Init, Inv;
    if k == 0 {
      InitInv(states[0]);
    } else {
      RunInv(states, labels, k - 1);
      assert Next(states[k - 1], labels[k - 1], states[k - 1 + 1]);
      StepInv(states[k - 1], labels[k - 1], states[k]);
    }
  }

  /** In every state of every run: the two outputs are a split of a prefix of the source that keeps its
      order, all of the source but the entry on offer; when either output is closed, all of it. */
  lemma {:induction false} FanoutSplits(states: seq<State>, labels: seq<Label>, k: nat)
    requires IsRun(states, labels) && k < |states|
    ensures
      var s := states[k];
      var given := Untag(s.trace);
      && IsShuffle(given, Of(s.trace, A), Of(s.trace, B))
      && given <= s.pulled && |s.pulled| - |given| == (if s.control.Offering? then 1 else 0)
      && multiset(given) == multiset(Of(s.trace, A)) + multiset(Of(s.trace, B))
      && (s.a.closed || s.b.closed ==> given == s.pulled)
  {
    hide IsRun, Untag, Of;
    RunInv(states, labels, k);
    TraceParts(states[k].trace);
  }

  /** How many steps the goroutine and the readers can still make on their own. */
  function Work(s: State): nat {
    (match s.control
     case Pulling => 2
     case Offering => 3
     case CloseA => 2
     case CloseB => 1
     case Finished => 0)
    + (if s.a.ended then 0 else 1) + (if s.b.ended then 0 else 1)
  }

  /** The source has ended, or failed. */
  predicate Stopped(s: State) { s.control.CloseA? || s.control.CloseB? || s.control.Finished? }

  /** What is left to do when the entries and the end of the source are counted as debts: every step
      settles one. */
  function Debt(s: State): int {
    Work(s) - 2 * |s.pulled| - (if Stopped(s) then 1 else 0)
  }

  lemma {:induction false} StepWork(s: State, l: Label, s': State)
    requires Next(s, l, s')
    ensures Debt(s') == Debt(s) - 1
  {
    match l
    case Pull(_) =>
    case _ =>
  }

  lemma {:induction false} InitDebt(s: State)
    requires Init(s)
    ensures Debt(s) == 4
  {
  }

  lemma {:induction false} RunDebt(states: seq<State>, labels: seq<Label>, k: nat)
    requires IsRun(states, labels) && k < |states|
    ensures k + Debt(states[k]) == 4
  {
    hide Next, Init, Debt;
    if k == 0 {
      InitDebt(states[0]);
    } else {
      RunDebt(states, labels, k - 1);
      assert Next(states[k - 1], labels[k - 1], states[k - 1 + 1]);
      StepWork(states[k - 1], labels[k - 1], states[k]);
    }
  }

  /** Every run makes two steps for each entry, one for the end of the source and four behind it, but for
      those that are still to come. */
  lemma {:induction false} RunLength(states: seq<State>, labels: seq<Label>, k: nat)
    requires IsRun(states, labels) && k < |states|
    ensures
      var s := states[k];
      k + Work(s) == 4 + 2 * |s.pulled| + (if Stopped(s) then 1 else 0)
  {
    hide IsRun, Work, Stopped;
    RunDebt(states, labels, k);
  }

  // ----- Every split is possible ---------------------------------------------------------------

  /** Whichever reader is ready gets the entry: in every state of every run in which one is on offer, each
      of the two can take it, whatever was taken before. */
  lemma {:induction false} EitherCanTake(states: seq<State>, labels: seq<Label>, k: nat)
    requires IsRun(states, labels) && k < |states| && states[k].control.Offering?
    ensures
      var s := states[k];
      s.pulled != [] &&
      var e := s.pulled[|s.pulled| - 1];
      && Next(s, GiveA(e), s.(control := Pulling, trace := s.trace + [(A, e)]))
      && Next(s, GiveB(e), s.(control := Pulling, trace := s.trace + [(B, e)]))
  {
    hide IsRun, Untag;
    RunInv(states, labels, k);
  }

  /** A run makes one more step. */
  lemma {:induction false} Then(states: seq<State>, labels: seq<Label>, l: Label, s: State)
    returns (states': seq<State>, labels': seq<Label>)
    requires IsRun(states, labels) && Next(states[|labels|], l, s)
    ensures IsRun(states', labels') && states'[|labels'|] == s && labels' == labels + [l]
  {
    hide Next, Init;
    states', labels' := states + [s], labels + [l];
    forall i | 0 <= i < |labels'|
      ensures Next(states'[i], labels'[i], states'[i + 1])
    {
      if i < |labels| {
        assert Next(states[i], labels[i], states[i + 1]);
      }
    }
  }

  const OPEN := Port(false, false)
  const CLOSED := Port(true, false)

  lemma {:induction false} GiveAll(t: Trace) returns (states: seq<State>, labels: seq<Label>)
    ensures IsRun(states, labels) && states[|labels|] == State(Pulling, Untag(t), t, OPEN, OPEN)
  {
    hide IsRun, Untag;
    if t == [] {
      states, labels := NoSteps();
      assert Untag([]) == [] by { NothingTagged(); }
    } else {
      var front := t[..|t| - 1];
      var (side, e) := t[|t| - 1];
      states, labels := GiveAll(front);
      TraceAppend(front, side, e);
      assert t == front + [(side, e)];
      var s := states[|labels|];
      var offer := s.(control := Offering, pulled := s.pulled + [e]);
      states, labels := Then(states, labels, Pull(e), offer);
      var given := offer.(control := Pulling, trace := t);
      states, labels := Then(states, labels, if side == A then GiveA(e) else GiveB(e), given);
    }
  }

  lemma {:induction false} NothingTagged()
    ensures Untag([]) == [] && forall side :: Of([], side) == []
  {
  }

  lemma {:induction false} NoSteps() returns (states: seq<State>, labels: seq<Label>)
    ensures IsRun(states, labels) && states[|labels|] == State(Pulling, [], [], OPEN, OPEN)
  {
    states, labels := [State(Pulling, [], [], OPEN, OPEN)], [];
  }

  /** Every source can be split in every way: for every list of entries with the sides that they go to there
      is a run that gives them so, and closes both outputs. */
  lemma {:induction false} AnySplit(t: Trace) returns (states: seq<State>, labels: seq<Label>)
    ensures IsRun(states, labels) && states[|labels|] == State(Finished, Untag(t), t, CLOSED, CLOSED)
  {
    hide IsRun, Untag;
    states, labels := GiveAll(t);
    var s := states[|labels|];
    var s1 := s.(control := CloseA);
    var s2 := s1.(control := CloseB, a := CLOSED);
    var s3 := s2.(control := Finished, b := CLOSED);
    states, labels := Then(states, labels, Stop, s1);
    states, labels := Then(states, labels, DoCloseA, s2);
    states, labels := Then(states, labels, DoCloseB, s3);
  }

  function AllTo(side: Side, es: seq<Entry>): (t: Trace)
    ensures |t| == |es|
  {
    if es == [] then [] else AllTo(side, es[..|es| - 1]) + [(side, es[|es| - 1])]
  }

  lemma {:induction false} AllToSide(side: Side, es: seq<Entry>)
    ensures Untag(AllTo(side, es)) == es
    ensures forall other :: Of(AllTo(side, es), other) == if other == side then es else []
  {
    if es != [] {
      AllToSide(side, es[..|es| - 1]);
      TraceAppend(AllTo(side, es[..|es| - 1]), side, es[|es| - 1]);
    }
  }

  /** One reader is enough: whichever output is read alone can get the whole source, in its order, and see
      the end, while the other one takes nothing. */
  lemma {:induction false} OneReaderSuffices(es: seq<Entry>, side: Side)
    returns (states: seq<State>, labels: seq<Label>)
    ensures IsRun(states, labels)
    ensures
      var s := states[|labels|];
      && s.pulled == es && (forall other :: Of(s.trace, other) == if other == side then es else [])
      && s.a.closed && s.b.closed
  {
    hide IsRun, Untag, Of, AllTo;
    AllToSide(side, es);
    states, labels := AnySplit(AllTo(side, es));
  }
}
