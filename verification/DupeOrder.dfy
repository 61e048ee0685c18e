/** When the outputs of a dupe keep the order of the source, and when they are identical. */
module DupeOrder {
  import opened Dupe

  /** The entries of the source from the first on. */
  ghost predicate InOrder(xs: seq<nat>) {
    forall i :: 0 <= i < |xs| ==> xs[i] == i
  }

  lemma {:induction false} InOrderHasAll(xs: seq<nat>)
    requires InOrder(xs)
    ensures forall i: nat :: i < |xs| ==> i in xs
  {
    forall i: nat | i < |xs|
      ensures i in xs
    {
      assert xs[i] == i;
    }
  }

  /** Two entries race to the first output only while the second is ahead of it, and to the second only
      while the first is two ahead. */
  lemma {:induction false} RaceMeansAhead(s: State)
    requires Inv(s)
    ensures |s.a.flying| <= 2 && |s.b.flying| <= 2
    ensures |s.a.flying| == 2 ==> |s.b.delivered| == |s.a.delivered| + 1 && !Stopped(s)
    ensures |s.b.flying| == 2 ==> |s.a.delivered| == |s.b.delivered| + 2
  {
  }

  /** The only entry in flight is the next one in order. */
  lemma {:induction false} OnlyOneIsNext(o: Output, started: int, k: nat)
    requires Accounts(o, started) && InOrder(o.delivered) && k in o.flying && |o.flying| == 1
    ensures InOrder(Receive(o, k).delivered)
  {
    InOrderHasAll(o.delivered);
    assert k == |o.delivered|;
  }

  /** An entry that overtakes another breaks the order for good. */
  lemma {:induction false} OvertakingBreaksOrder(o: Output, started: int, j: nat, k: nat)
    requires Accounts(o, started) && j in o.flying && k in o.flying && j < k
    ensures !InOrder(Receive(o, k).delivered)
  {
    var n := |o.delivered|;
    assert Receive(o, k).delivered[n] == k;
    if InOrder(o.delivered) {
      InOrderHasAll(o.delivered);
    } else {
      var i :| 0 <= i < n && o.delivered[i] != i;
      assert Receive(o, k).delivered[i] == o.delivered[i];
    }
  }

  /** The first output is read only while the second is not ahead of it. */
  ghost predicate ReadsAFirst(states: seq<State>, labels: seq<Label>)
    requires IsPath(states, labels)
  {
    forall i :: 0 <= i < |labels| && labels[i].DeliverA? ==>
      |states[i].b.delivered| <= |states[i].a.delivered|
  }

  /** The second output is read only while the first is not two ahead of it. */
  ghost predicate ReadsBSoon(states: seq<State>, labels: seq<Label>)
    requires IsPath(states, labels)
  {
    forall i :: 0 <= i < |labels| && labels[i].DeliverB? ==>
      |states[i].a.delivered| <= |states[i].b.delivered| + 1
  }

  /** In every run that reads them so, the outputs give the entries in the order of the source. */
  lemma {:induction false} OrderIsKept(states: seq<State>, labels: seq<Label>, k: nat)
    requires IsRun(states, labels) && k < |states|
    ensures ReadsAFirst(states, labels) ==> InOrder(states[k].a.delivered)
    ensures ReadsBSoon(states, labels) ==> InOrder(states[k].b.delivered)
  {
    hide Inv, Accounts, Receive, InOrder, Next;
    if k == 0 {
      NothingIsInOrder();
    } else {
      OrderIsKept(states, labels, k - 1);
      RunInv(states, labels, k - 1);
      var s, l := states[k - 1], labels[k - 1];
      assert Next(s, l, states[k - 1 + 1]);
      StepKeepsOrder(s, l, states[k]);
    }
  }

  lemma {:induction false} NothingIsInOrder()
    ensures InOrder([])
  {
  }

  lemma {:induction false} StepKeepsOrder(s: State, l: Label, s': State)
    requires Inv(s) && Next(s, l, s')
    ensures InOrder(s.a.delivered) && (l.DeliverA? ==> |s.b.delivered| <= |s.a.delivered|) ==>
      InOrder(s'.a.delivered)
    ensures InOrder(s.b.delivered) && (l.DeliverB? ==> |s.a.delivered| <= |s.b.delivered| + 1) ==>
      InOrder(s'.b.delivered)
  {
    hide Accounts, Receive, InOrder;
    RaceMeansAhead(s);
    match l
    case DeliverA(k) =>
      assert 0 < |s.a.flying|;
      if InOrder(s.a.delivered) && |s.a.flying| == 1 {
        OnlyOneIsNext(s.a, StartedA(s), k);
      }
    case DeliverB(k) =>
      assert 0 < |s.b.flying|;
      if InOrder(s.b.delivered) && |s.b.flying| == 1 {
        OnlyOneIsNext(s.b, StartedB(s), k);
      }
    case _ =>
  }

  /** A newer entry is in flight to the output together with an older one, and may be received first. */
  ghost predicate Race(o: Output) {
    exists j, k :: j in o.flying && k in o.flying && j < k
  }

  lemma {:induction false} RaceIsTwo(o: Output)
    requires |o.flying| <= 2
    ensures Race(o) <==> |o.flying| == 2
  {
    if Race(o) {
      var j, k :| j in o.flying && k in o.flying && j < k;
      assert o.flying == {j, k} + (o.flying - {j, k});
    }
    if |o.flying| == 2 {
      var j :| j in o.flying;
      assert |o.flying - {j}| == 1;
      var k :| k in o.flying - {j};
      assert j < k || k < j;
    }
  }

  predicate IsDelivery(l: Label) { l.DeliverA? || l.DeliverB? }

  /** A path on which nothing is received leads from one state to the other. */
  ghost predicate Leads(s: State, t: State) {
    exists states, labels ::
      && IsPath(states, labels) && states[0] == s && states[|labels|] == t
      && forall i :: 0 <= i < |labels| ==> !IsDelivery(labels[i])
  }

  lemma {:induction false} LeadsToItself(s: State)
    ensures Leads(s, s)
  {
    var none: seq<Label> := [];
    assert IsPath([s], none) && [s][0] == s && [s][|none|] == s;
  }

  lemma {:induction false} LeadsBefore(s: State, l: Label, s': State, t: State)
    requires Next(s, l, s') && !IsDelivery(l) && Leads(s', t)
    ensures Leads(s, t)
  {
    hide Next, IsDelivery;
    var states, labels :| IsPath(states, labels) && states[0] == s' && states[|labels|] == t
      && forall i :: 0 <= i < |labels| ==> !IsDelivery(labels[i]);
    var more, ls := [s] + states, [l] + labels;
    forall i | 0 <= i < |ls|
      ensures Next(more[i], ls[i], more[i + 1]) && !IsDelivery(ls[i])
    {
      if 0 < i {
        assert Next(states[i - 1], labels[i - 1], states[i - 1 + 1]);
      }
    }
    assert IsPath(more, ls) && more[0] == s && more[|ls|] == t;
  }

  /** What holds along a path on which nothing is received. */
  lemma {:induction false} QuietPath(states: seq<State>, labels: seq<Label>, k: nat)
    requires IsPath(states, labels) && Inv(states[0]) && k < |states|
    requires forall i :: 0 <= i < |labels| ==> !IsDelivery(labels[i])
    ensures
      var s, t := states[0], states[k];
      Inv(t) && t.a.delivered == s.a.delivered && t.b.delivered == s.b.delivered && (Stopped(s) ==> Stopped(t))
  {
    hide Next, Inv, Stopped, IsDelivery;
    if 0 < k {
      QuietPath(states, labels, k - 1);
      assert Next(states[k - 1], labels[k - 1], states[k - 1 + 1]);
      StepInv(states[k - 1], labels[k - 1], states[k]);
      QuietStep(states[k - 1], labels[k - 1], states[k]);
    }
  }

  lemma {:induction false} QuietStep(s: State, l: Label, s': State)
    requires Next(s, l, s') && !IsDelivery(l)
    ensures s'.a.delivered == s.a.delivered && s'.b.delivered == s.b.delivered && (Stopped(s) ==> Stopped(s'))
  {
  }

  /** Without anything being received before, a newer entry can come to be in front of an older one. */
  ghost predicate CanOvertakeA(s: State) { exists t :: Leads(s, t) && Race(t.a) }

  ghost predicate CanOvertakeB(s: State) { exists t :: Leads(s, t) && Race(t.b) }

  /** The condition for each output is exact: whatever was received so far, what is received next is
      certain to be the next in order exactly if the first output is not behind the second, or the source
      has ended; and exactly if the second is not two behind the first. */
  lemma {:induction false} OvertakingIff(s: State)
    requires Inv(s)
    ensures CanOvertakeA(s) <==> |s.a.delivered| < |s.b.delivered| && !Stopped(s)
    ensures CanOvertakeB(s) <==> |s.b.delivered| + 1 < |s.a.delivered|
  {
    hide Inv, Stopped, Race, Leads;
    if CanOvertakeA(s) {
      var t :| Leads(s, t) && Race(t.a);
      AfterQuiet(s, t);
    } else if |s.a.delivered| < |s.b.delivered| && !Stopped(s) {
      LaterOvertakesA(s);
    }
    if CanOvertakeB(s) {
      var t :| Leads(s, t) && Race(t.b);
      AfterQuiet(s, t);
    } else if |s.b.delivered| + 1 < |s.a.delivered| {
      LaterOvertakesB(s);
    }
  }

  lemma {:induction false} AfterQuiet(s: State, t: State)
    requires Inv(s) && Leads(s, t)
    ensures Race(t.a) ==> |s.a.delivered| < |s.b.delivered| && !Stopped(s)
    ensures Race(t.b) ==> |s.b.delivered| + 1 < |s.a.delivered|
  {
    hide Inv, Race, Next, Stopped;
    var states, labels :| IsPath(states, labels) && states[0] == s && states[|labels|] == t
      && forall i :: 0 <= i < |labels| ==> !IsDelivery(labels[i]);
    QuietPath(states, labels, |labels|);
    RaceMeansAhead(t);
    RaceIsTwo(t.a);
    RaceIsTwo(t.b);
  }

  /** Once a permit is back, the next entry starts beside the one that is late. */
  lemma {:induction false} LaterOvertakesA(s: State)
    requires Inv(s) && |s.a.delivered| < |s.b.delivered| && !Stopped(s)
    ensures CanOvertakeA(s)
    decreases if s.control.Pulling? then 3 else if s.control.AcquireA? then 2 - s.permits else 0
  {
    hide Inv, Race, Leads, Start;
    WhereBehind(s);
    if s.control.AcquireB? {
      RaceIsTwo(s.a);
      LeadsToItself(s);
      return;
    }
    var l, s';
    if s.control.Pulling? {
      l, s' := Pull, s.(control := AcquireA, pulled := s.pulled + 1);
    } else if s.permits == 0 {
      l, s' := Release, s.(releasing := s.releasing - 1, permits := s.permits + 1);
    } else {
      l, s' := StartA, s.(control := AcquireB, permits := s.permits - 1, a := Start(s.a, s.pulled - 1));
    }
    StepInv(s, l, s');
    QuietStep(s, l, s');
    LaterOvertakesA(s');
    var t :| Leads(s', t) && Race(t.a);
    LeadsBefore(s, l, s', t);
  }

  lemma {:induction false} LaterOvertakesB(s: State)
    requires Inv(s) && |s.b.delivered| + 1 < |s.a.delivered|
    ensures CanOvertakeB(s)
    decreases if s.control.AcquireB? then 3 - s.permits else 0
  {
    hide Inv, Race, Leads, Start;
    WhereBehind(s);
    if !s.control.AcquireB? {
      RaceIsTwo(s.b);
      LeadsToItself(s);
      return;
    }
    var l, s';
    if s.permits == 0 {
      l, s' := Release, s.(releasing := s.releasing - 1, permits := s.permits + 1);
    } else {
      l, s' := StartB, s.(control := Pulling, permits := s.permits - 1, b := Start(s.b, s.pulled - 1));
    }
    StepInv(s, l, s');
    QuietStep(s, l, s');
    LaterOvertakesB(s');
    var t :| Leads(s', t) && Race(t.b);
    LeadsBefore(s, l, s', t);
  }

  /** Where the permits are while an output is behind. */
  lemma {:induction false} WhereBehind(s: State)
    requires Inv(s)
    ensures |s.a.flying| <= 2 && |s.b.flying| <= 2 && 0 <= s.permits
    ensures (s.control.AcquireA? || s.control.AcquireB? ==> 0 < s.pulled)
    ensures |s.a.delivered| < |s.b.delivered| && s.control.AcquireB? ==> |s.a.flying| == 2
    ensures |s.a.delivered| < |s.b.delivered| && s.control.AcquireA? ==> s.permits + s.releasing == 1
    ensures |s.b.delivered| + 1 < |s.a.delivered| ==>
      if s.control.AcquireB? then s.permits + s.releasing == 1 else |s.b.flying| == 2
  {
  }

  /** A run that has come to s goes on to t. */
  lemma {:induction false} GoOn(states: seq<State>, labels: seq<Label>, t: State)
    returns (states': seq<State>, labels': seq<Label>)
    requires IsRun(states, labels) && Leads(states[|labels|], t)
    ensures IsRun(states', labels') && labels <= labels' && states'[|labels'|] == t
  {
    hide Next, Init, IsDelivery;
    var more, ls :| IsPath(more, ls) && more[0] == states[|labels|] && more[|ls|] == t
      && forall i :: 0 <= i < |ls| ==> !IsDelivery(ls[i]);
    states', labels' := states + more[1..], labels + ls;
    forall i | 0 <= i < |labels'|
      ensures Next(states'[i], labels'[i], states'[i + 1])
    {
      if i < |labels| {
        assert Next(states[i], labels[i], states[i + 1]);
      } else {
        var k := i - |labels|;
        assert Next(more[k], ls[k], more[k + 1]);
      }
    }
  }

  /** An output has fallen so far behind the other that its next entry can be overtaken. */
  predicate Behind(s: State) {
    (|s.a.delivered| < |s.b.delivered| && !Stopped(s)) || |s.b.delivered| + 1 < |s.a.delivered|
  }

  /** Every run in which an output has fallen behind so far goes on, in some schedule, to one in which that
      output is out of order. */
  lemma {:induction false} OrderBreaks(states: seq<State>, labels: seq<Label>)
    returns (states': seq<State>, labels': seq<Label>)
    requires IsRun(states, labels)
    requires Behind(states[|labels|])
    ensures IsRun(states', labels') && labels <= labels'
    ensures
      var s, t := states[|labels|], states'[|labels'|];
      !InOrder(if |s.a.delivered| < |s.b.delivered| then t.a.delivered else t.b.delivered)
  {
    hide IsRun, Accounts, Stopped, Leads, Receive, InOrder;
    var s := states[|labels|];
    RunInv(states, labels, |labels|);
    OvertakingIff(s);
    if |s.a.delivered| < |s.b.delivered| {
      var t :| Leads(s, t) && Race(t.a);
      states', labels' := GoOn(states, labels, t);
      RunInv(states', labels', |labels'|);
      var j, k :| j in t.a.flying && k in t.a.flying && j < k;
      OvertakingBreaksOrder(t.a, StartedA(t), j, k);
      states', labels' := Then(states', labels', DeliverA(k), t.(a := Receive(t.a, k), releasing := t.releasing + 1));
    } else {
      var t :| Leads(s, t) && Race(t.b);
      states', labels' := GoOn(states, labels, t);
      RunInv(states', labels', |labels'|);
      var j, k :| j in t.b.flying && k in t.b.flying && j < k;
      OvertakingBreaksOrder(t.b, StartedB(t), j, k);
      states', labels' := Then(states', labels', DeliverB(k), t.(b := Receive(t.b, k), releasing := t.releasing + 1));
    }
  }

  // ----- Readers who take turns ------------------------------------------------------------------

  /** Two readers take turns: an entry from the first output, the same from the second. */
  ghost predicate TakeTurns(states: seq<State>, labels: seq<Label>)
    requires IsPath(states, labels)
  {
    forall i :: 0 <= i < |labels| ==>
      && (labels[i].DeliverA? ==> |states[i].a.delivered| == |states[i].b.delivered|)
      && (labels[i].DeliverB? ==> |states[i].a.delivered| == |states[i].b.delivered| + 1)
  }

  /** Taking turns is all that is safe: from a state of such a run, a reading opens the way for an entry to be
      overtaken exactly if it is out of turn, but for the second reader once the source has ended. */
  lemma {:induction false} OutOfTurnIff(s: State, l: Label, s': State)
    requires Inv(s) && Next(s, l, s') && IsDelivery(l)
    requires 0 <= |s.a.delivered| - |s.b.delivered| <= 1
    ensures CanOvertakeA(s') || CanOvertakeB(s')
      <==> (if l.DeliverA? then |s.a.delivered| != |s.b.delivered|
            else |s.a.delivered| == |s.b.delivered| && !Stopped(s))
  {
    hide Inv, Accounts, CanOvertakeA, CanOvertakeB;
    StepInv(s, l, s');
    OvertakingIff(s');
  }

  /** Readers who take turns get identical outputs: in every state, both have the same entries in the order
      of the source, but for the one that the second still has to read; and all of them once either
      output is closed. */
  lemma {:induction false} TurnsGiveIdentical(states: seq<State>, labels: seq<Label>, k: nat)
    requires IsRun(states, labels) && TakeTurns(states, labels) && k < |states|
    ensures
      var s := states[k];
      && InOrder(s.a.delivered) && InOrder(s.b.delivered) && s.b.delivered <= s.a.delivered
      && |s.a.delivered| - |s.b.delivered| <= 1
      && (s.a.closed || s.b.closed ==> s.a.delivered == s.b.delivered && |s.a.delivered| == s.pulled)
  {
    hide IsPath, AllOnce, Init;
    OrderIsKept(states, labels, k);
    DupeIsSafe(states, labels, k);
    TurnsCount(states, labels, k);
    AllOnceLength(states[k].a.delivered, states[k].pulled);
    AllOnceLength(states[k].b.delivered, states[k].pulled);
  }

  lemma {:induction false} TurnsCount(states: seq<State>, labels: seq<Label>, k: nat)
    requires IsRun(states, labels) && TakeTurns(states, labels) && k < |states|
    ensures 0 <= |states[k].a.delivered| - |states[k].b.delivered| <= 1
  {
    if 0 < k {
      TurnsCount(states, labels, k - 1);
      assert Next(states[k - 1], labels[k - 1], states[k - 1 + 1]);
    }
  }

  /** And they never wait for each other: unless the source is waited for, or both have seen the end, there
      is a step in which nobody reads out of turn. */
  lemma {:induction false} TurnsNeverStick(s: State) returns (l: Label, s': State)
    requires Inv(s) && !s.control.Pulling? && !(s.a.ended && s.b.ended)
    requires 0 <= |s.a.delivered| - |s.b.delivered| <= 1
    ensures Next(s, l, s') && !l.Pull? && !l.Stop?
    ensures l.DeliverA? ==> |s.a.delivered| == |s.b.delivered|
    ensures l.DeliverB? ==> |s.a.delivered| == |s.b.delivered| + 1
  {
    hide Start, Receive, Accounts;
    if 0 < s.releasing {
      l, s' := Release, s.(releasing := s.releasing - 1, permits := s.permits + 1);
    } else if |s.a.delivered| == |s.b.delivered| && s.a.flying != {} {
      var k :| k in s.a.flying;
      l, s' := DeliverA(k), s.(a := Receive(s.a, k), releasing := s.releasing + 1);
    } else if |s.a.delivered| != |s.b.delivered| && s.b.flying != {} {
      var k :| k in s.b.flying;
      l, s' := DeliverB(k), s.(b := Receive(s.b, k), releasing := s.releasing + 1);
    } else {
      NobodysTurn(s);
      l, s' := ControlMoves(s);
    }
  }

  /** While the reader whose turn it is finds nothing in flight, nothing is in flight at all. */
  lemma {:induction false} NobodysTurn(s: State)
    requires Inv(s) && 0 <= |s.a.delivered| - |s.b.delivered| <= 1
    requires if |s.a.delivered| == |s.b.delivered| then s.a.flying == {} else s.b.flying == {}
    ensures |s.a.flying| == 0 && |s.b.flying| == 0
  {
  }

  // ----- No order is promised ------------------------------------------------------------------

  /** lo, lo + 1 and so on up to, and without, hi. */
  function Range(lo: nat, hi: nat): (r: seq<nat>)
    requires lo <= hi
    ensures |r| == hi - lo
  {
    if lo == hi then [] else Range(lo, hi - 1) + [hi - 1]
  }

  /** The first entry is still in flight to the first output; all others have arrived everywhere. */
  function Overtaken(n: nat): State {
    State(Pulling, n + 1, 1, 0,
          Output({0}, Range(1, n + 1), false, false), Output({}, Range(0, n + 1), false, false))
  }

  lemma {:induction false} FirstIsLate() returns (states: seq<State>, labels: seq<Label>)
    ensures IsRun(states, labels) && states[|labels|] == Overtaken(0)
  {
    var s0 := State(Pulling, 0, PERMITS, 0, NO_OUTPUT, NO_OUTPUT);
    var s1 := s0.(control := AcquireA, pulled := 1);
    var s2 := s1.(control := AcquireB, permits := 1, a := Start(NO_OUTPUT, 0));
    var s3 := s2.(control := Pulling, permits := 0, b := Start(NO_OUTPUT, 0));
    var s4 := s3.(b := Receive(s3.b, 0), releasing := 1);
    var s5 := s4.(releasing := 0, permits := 1);
    states, labels := [s0], [];
    assert IsRun(states, labels);
    hide IsRun;
    states, labels := Then(states, labels, Pull, s1);
    states, labels := Then(states, labels, StartA, s2);
    states, labels := Then(states, labels, StartB, s3);
    states, labels := Then(states, labels, DeliverB(0), s4);
    states, labels := Then(states, labels, Release, s5);
    assert Range(0, 1) == [0] && {0} - {0} == {};
  }

  /** One more entry overtakes the first one. */
  lemma {:induction false} OneMore(states: seq<State>, labels: seq<Label>, n: nat)
    returns (states': seq<State>, labels': seq<Label>)
    requires IsRun(states, labels) && states[|labels|] == Overtaken(n)
    ensures IsRun(states', labels') && states'[|labels'|] == Overtaken(n + 1)
  {
    hide IsRun, Range;
    var k := n + 1;
    var s := Overtaken(n);
    var s1 := s.(control := AcquireA, pulled := k + 1);
    var s2 := s1.(control := AcquireB, permits := 0, a := Start(s.a, k));
    var s3 := s2.(a := Receive(s2.a, k), releasing := 1);
    var s4 := s3.(releasing := 0, permits := 1);
    var s5 := s4.(control := Pulling, permits := 0, b := Start(s.b, k));
    var s6 := s5.(b := Receive(s5.b, k), releasing := 1);
    var s7 := s6.(releasing := 0, permits := 1);
    states', labels' := Then(states, labels, Pull, s1);
    states', labels' := Then(states', labels', StartA, s2);
    states', labels' := Then(states', labels', DeliverA(k), s3);
    states', labels' := Then(states', labels', Release, s4);
    states', labels' := Then(states', labels', StartB, s5);
    states', labels' := Then(states', labels', DeliverB(k), s6);
    states', labels' := Then(states', labels', Release, s7);
    assert {0} + {k} - {k} == {0} && {} + {k} - {k} == {};
    RangeMore(1, k);
    RangeMore(0, k);
  }

  lemma {:induction false} RangeMore(lo: nat, hi: nat)
    requires lo <= hi
    ensures Range(lo, hi + 1) == Range(lo, hi) + [hi]
  {
  }

  /** An entry can be overtaken by any number of later ones on the same output. */
  lemma {:induction false} OvertakenByAny(n: nat) returns (states: seq<State>, labels: seq<Label>)
    ensures IsRun(states, labels) && states[|labels|].a.delivered == Range(1, n + 1) + [0]
  {
    hide IsRun, Range;
    states, labels := LateBy(n);
    var s := Overtaken(n);
    states, labels := Then(states, labels, DeliverA(0), s.(a := Receive(s.a, 0), releasing := 1));
  }

  lemma {:induction false} LateBy(n: nat) returns (states: seq<State>, labels: seq<Label>)
    ensures IsRun(states, labels) && states[|labels|] == Overtaken(n)
  {
    hide IsRun, Overtaken;
    if n == 0 {
      states, labels := FirstIsLate();
    } else {
      states, labels := LateBy(n - 1);
      states, labels := OneMore(states, labels, n - 1);
    }
  }
}
