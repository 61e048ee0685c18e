/** The dupe protocol: one goroutine that pulls from the source and, under a semaphore of two permits,
    starts a goroutine for every send on either output. */
module Dupe {
  const PERMITS := 2

  /** Where the pulling goroutine is. */
  datatype Control = Pulling | AcquireA | AcquireB | AcquireBoth | CloseA | CloseB | Finished

  /** An entry is known by its place in the source. flying holds the entries whose send on an output has
      been started and not been received; releasing counts sends that are done but have not given their
      permit back. */
  datatype Output = Output(flying: set<nat>, delivered: seq<nat>, closed: bool, ended: bool)

  datatype State = State(
    control: Control, pulled: nat, permits: int, releasing: nat, a: Output, b: Output)

  datatype Label =
    | Pull | Stop | StartA | StartB
    | DeliverA(k: nat) | DeliverB(k: nat) | Release
    | AcquireAll | DoCloseA | DoCloseB | EndA | EndB

  const NO_OUTPUT := Output({}, [], false, false)

  predicate Init(s: State) {
    s == State(Pulling, 0, PERMITS, 0, NO_OUTPUT, NO_OUTPUT)
  }

  function Start(o: Output, k: nat): (r: Output)
    ensures r.closed == o.closed && r.ended == o.ended
  {
    o.(flying := o.flying + {k})
  }

  function Receive(o: Output, k: nat): (r: Output)
    ensures r.closed == o.closed && r.ended == o.ended
  {
    o.(flying := o.flying - {k}, delivered := o.delivered + [k])
  }

  /** One step. A send that is in flight can be received at any time, in any order: nothing orders the
      goroutines that send. Stop is the end of the source or an error. */
  predicate Next(s: State, l: Label, s': State) {
    match l
    case Pull => s.control.Pulling? && s' == s.(control := AcquireA, pulled := s.pulled + 1)
    case Stop => s.control.Pulling? && s' == s.(control := AcquireBoth)
    case StartA =>
      && s.control.AcquireA? && 0 < s.permits && 0 < s.pulled
      && s' == s.(control := AcquireB, permits := s.permits - 1, a := Start(s.a, s.pulled - 1))
    case StartB =>
      && s.control.AcquireB? && 0 < s.permits && 0 < s.pulled
      && s' == s.(control := Pulling, permits := s.permits - 1, b := Start(s.b, s.pulled - 1))
    case DeliverA(k) =>
      k in s.a.flying && s' == s.(a := Receive(s.a, k), releasing := s.releasing + 1)
    case DeliverB(k) =>
      k in s.b.flying && s' == s.(b := Receive(s.b, k), releasing := s.releasing + 1)
    case Release => 0 < s.releasing && s' == s.(releasing := s.releasing - 1, permits := s.permits + 1)
    case AcquireAll =>
      s.control.AcquireBoth? && s.permits == PERMITS && s' == s.(control := CloseA, permits := 0)
    case DoCloseA => s.control.CloseA? && s' == s.(control := CloseB, a := s.a.(closed := true))
    case DoCloseB => s.control.CloseB? && s' == s.(control := Finished, b := s.b.(closed := true))
    case EndA => s.a.closed && !s.a.ended && s' == s.(a := s.a.(ended := true))
    case EndB => s.b.closed && !s.b.ended && s' == s.(b := s.b.(ended := true))
  }

  /** How many sends on an output have been started. */
  function StartedA(s: State): int {
    if s.control.AcquireA? then s.pulled - 1 else s.pulled
  }

  function StartedB(s: State): int {
    if s.control.AcquireA? || s.control.AcquireB? then s.pulled - 1 else s.pulled
  }

  /** Everything that was started has been delivered once or is in flight. */
  ghost predicate Accounts(o: Output, started: int) {
    && (forall k :: k in o.flying ==> k < started && k !in o.delivered)
    && (forall k :: k in o.delivered ==> k < started)
    && (forall i, j :: 0 <= i < j < |o.delivered| ==> o.delivered[i] != o.delivered[j])
    && |o.delivered| + |o.flying| == started
    && (o.ended ==> o.closed)
  }

  predicate Closing(c: Control) { c.CloseA? || c.CloseB? || c.Finished? }

  ghost predicate Inv(s: State) {
    && (s.control.AcquireA? || s.control.AcquireB? ==> 0 < s.pulled)
    && Accounts(s.a, StartedA(s)) && Accounts(s.b, StartedB(s))
    && 0 <= s.permits
    && s.permits + s.releasing + |s.a.flying| + |s.b.flying| == (if Closing(s.control) then 0 else PERMITS)
    && (s.control.AcquireB? ==> |s.b.flying| <= 1)
    && (s.control.Pulling? || s.control.AcquireA? || s.control.AcquireBoth? ==> |s.a.flying| <= 1)
    && (s.a.closed <==> s.control.CloseB? || s.control.Finished?)
    && (s.b.closed <==> s.control.Finished?)
  }

  lemma {:induction false} StartAccounts(o: Output, started: nat)
    requires Accounts(o, started)
    ensures Accounts(Start(o, started), started + 1) && |Start(o, started).flying| == |o.flying| + 1
  {
  }

  lemma {:induction false} ReceiveAccounts(o: Output, started: int, k: nat)
    requires Accounts(o, started) && k in o.flying
    ensures Accounts(Receive(o, k), started) && |Receive(o, k).flying| == |o.flying| - 1
  {
  }

  lemma {:induction false} CloseAccounts(o: Output, started: int)
    requires Accounts(o, started)
    ensures Accounts(o.(closed := true), started) && (o.closed ==> Accounts(o.(ended := true), started))
  {
  }

  lemma {:induction false} StepInv(s: State, l: Label, s': State)
    requires Inv(s) && Next(s, l, s')
    ensures Inv(s')
  {
    hide Start, Receive;
    match l
    case StartA => hide Accounts; StartAccounts(s.a, s.pulled - 1);
    case StartB => hide Accounts; StartAccounts(s.b, s.pulled - 1);
    case DeliverA(k) => hide Accounts; ReceiveAccounts(s.a, StartedA(s), k);
    case DeliverB(k) => hide Accounts; ReceiveAccounts(s.b, StartedB(s), k);
    case DoCloseA => hide Accounts; CloseAccounts(s.a, s.pulled);
    case DoCloseB => hide Accounts; CloseAccounts(s.b, s.pulled);
    case EndA => hide Accounts; CloseAccounts(s.a, s.pulled);
    case EndB => hide Accounts; CloseAccounts(s.b, s.pulled);
    case _ => hide Accounts;
  }

  lemma {:induction false} InitInv(s: State)
    requires Init(s)
    ensures Inv(s)
  {
  }

  ghost predicate IsPath(states: seq<State>, labels: seq<Label>)
    ensures IsPath(states, labels) ==> |states| == |labels| + 1
  {
    && |states| == |labels| + 1
    && forall i :: 0 <= i < |labels| ==> Next(states[i], labels[i], states[i + 1])
  }

  ghost predicate IsRun(states: seq<State>, labels: seq<Label>)
    ensures IsRun(states, labels) ==> |states| == |labels| + 1
  {
    IsPath(states, labels) && Init(states[0])
  }

  lemma {:induction false} RunInv(states: seq<State>, labels: seq<Label>, k: nat)
    requires IsRun(states, labels) && k < |states|
    ensures Inv(states[k])
  {
    hide Next, Init, Inv;
    if k == 0 {
      InitInv(states[0]);
    } else {
      RunInv(states, labels, k - 1);
      assert Next(states[k - 1], labels[k - 1], states[k - 1 + 1]);
      StepInv(states[k - 1], labels[k - 1], states[k]);
    }
  }

  /** Every entry of the source, each exactly once. */
  ghost predicate AllOnce(delivered: seq<nat>, n: nat) {
    && |delivered| == n
    && (forall i, j :: 0 <= i < j < |delivered| ==> delivered[i] != delivered[j])
    && (forall k: nat :: k in delivered <==> k < n)
  }

  /** In every state of every run: at most two sends are in flight; the first output is at most two
      entries ahead of the second and at most one behind it; nothing is in flight to a closed output; and
      when either output is closed, both have received every entry of the source exactly once. */
  lemma {:induction false} DupeIsSafe(states: seq<State>, labels: seq<Label>, k: nat)
    requires IsRun(states, labels) && k < |states|
    ensures
      var s := states[k];
      && |s.a.flying| + |s.b.flying| <= PERMITS
      && -1 <= |s.a.delivered| - |s.b.delivered| <= 2
      && (s.a.closed ==> s.a.flying == {}) && (s.b.closed ==> s.b.flying == {})
      && (s.a.closed || s.b.closed ==> AllOnce(s.a.delivered, s.pulled) && AllOnce(s.b.delivered, s.pulled))
      && (s.a.ended ==> s.a.closed) && (s.b.ended ==> s.b.closed)
  {
    hide IsRun;
    RunInv(states, labels, k);
    var s := states[k];
    if s.a.closed || s.b.closed {
      EmptyAccounts(s.a, s.pulled);
      EmptyAccounts(s.b, s.pulled);
    }
  }

  lemma {:induction false} EmptyAccounts(o: Output, n: nat)
    requires Accounts(o, n) && |o.flying| == 0
    ensures o.flying == {} && AllOnce(o.delivered, n)
  {
    FullSet(o.delivered, n);
  }

  function Below(n: nat): (r: set<nat>)
    ensures |r| == n && forall k: nat :: k in r <==> k < n
  {
    if n == 0 then {} else Below(n - 1) + {n - 1}
  }

  function Members(xs: seq<nat>): (r: set<nat>)
    ensures forall k :: k in r <==> k in xs
  {
    if xs == [] then {}
    else
      assert xs == xs[..|xs| - 1] + [xs[|xs| - 1]];
      Members(xs[..|xs| - 1]) + {xs[|xs| - 1]}
  }

  lemma {:induction false} CountMembers(xs: seq<nat>)
    requires forall i, j :: 0 <= i < j < |xs| ==> xs[i] != xs[j]
    ensures |Members(xs)| == |xs|
  {
    if xs != [] {
      var front, last := xs[..|xs| - 1], xs[|xs| - 1];
      CountMembers(front);
      assert last !in front;
    }
  }

  /** n different numbers below n are all of them. */
  lemma {:induction false} FullSet(xs: seq<nat>, n: nat)
    requires |xs| == n && (forall i, j :: 0 <= i < j < |xs| ==> xs[i] != xs[j])
    requires forall k :: k in xs ==> k < n
    ensures forall k: nat :: k in xs <==> k < n
  {
    CountMembers(xs);
    SubsetOfSameSize(Members(xs), Below(n));
    assert forall k :: k in xs <==> k in Members(xs);
  }

  lemma {:induction false} SubsetOfSameSize(a: set<nat>, b: set<nat>)
    requires a <= b && |a| == |b|
    ensures a == b
  {
    assert b == a + (b - a);
    assert |b| == |a| + |b - a|;
  }

  /** If the second output is never read, the first one gets at most two entries; if the first is never
      read, the second gets at most one. Neither is ever closed unless the source was empty: whoever
      reads the outputs one after the other waits for ever. */
  lemma {:induction false} OneReaderStarves(states: seq<State>, labels: seq<Label>, k: nat)
    requires IsRun(states, labels) && k < |states|
    ensures
      (forall i :: 0 <= i < |labels| ==> !labels[i].DeliverB?) ==>
        && |states[k].a.delivered| <= 2
        && (0 < states[k].pulled ==> !states[k].a.closed && !states[k].a.ended)
    ensures
      (forall i :: 0 <= i < |labels| ==> !labels[i].DeliverA?) ==>
        && |states[k].b.delivered| <= 1
        && (0 < states[k].pulled ==> !states[k].b.closed && !states[k].b.ended)
  {
    hide Inv, AllOnce;
    DupeIsSafe(states, labels, k);
    NothingReceived(states, labels, k);
    AllOnceLength(states[k].a.delivered, states[k].pulled);
    AllOnceLength(states[k].b.delivered, states[k].pulled);
  }

  lemma {:induction false} AllOnceLength(xs: seq<nat>, n: nat)
    ensures AllOnce(xs, n) ==> |xs| == n
  {
  }

  lemma {:induction false} NothingReceived(states: seq<State>, labels: seq<Label>, k: nat)
    requires IsRun(states, labels) && k < |states|
    ensures (forall i :: 0 <= i < |labels| ==> !labels[i].DeliverA?) ==> states[k].a.delivered == []
    ensures (forall i :: 0 <= i < |labels| ==> !labels[i].DeliverB?) ==> states[k].b.delivered == []
  {
    if 0 < k {
      NothingReceived(states, labels, k - 1);
      assert Next(states[k - 1], labels[k - 1], states[k - 1 + 1]);
    }
  }

  /** As long as both readers read on, dupe waits for nothing but its source. */
  lemma {:induction false} OnlyTheSourceIsWaitedFor(s: State) returns (l: Label, s': State)
    requires Inv(s) && !s.control.Pulling? && !(s.a.ended && s.b.ended)
    ensures Next(s, l, s') && !l.Pull? && !l.Stop?
  {
    hide Accounts, Start, Receive;
    if k :| k in s.a.flying {
      l, s' := DeliverA(k), s.(a := Receive(s.a, k), releasing := s.releasing + 1);
    } else if k :| k in s.b.flying {
      l, s' := DeliverB(k), s.(b := Receive(s.b, k), releasing := s.releasing + 1);
    } else if 0 < s.releasing {
      l, s' := Release, s.(releasing := s.releasing - 1, permits := s.permits + 1);
    } else {
      l, s' := ControlMoves(s);
    }
  }

  lemma {:induction false} ControlMoves(s: State) returns (l: Label, s': State)
    requires Inv(s) && !s.control.Pulling? && !(s.a.ended && s.b.ended)
    requires |s.a.flying| == 0 && |s.b.flying| == 0 && s.releasing <= 0
    ensures Next(s, l, s') && !l.Pull? && !l.Stop? && !l.DeliverA? && !l.DeliverB?
    ensures l.EndA? || l.EndB? ==> s.control.Finished?
  {
    hide Accounts, Start;
    match s.control
    case AcquireA =>
      l, s' := StartA, s.(control := AcquireB, permits := s.permits - 1, a := Start(s.a, s.pulled - 1));
    case AcquireB =>
      l, s' := StartB, s.(control := Pulling, permits := s.permits - 1, b := Start(s.b, s.pulled - 1));
    case AcquireBoth => l, s' := AcquireAll, s.(control := CloseA, permits := 0);
    case CloseA => l, s' := DoCloseA, s.(control := CloseB, a := s.a.(closed := true));
    case CloseB => l, s' := DoCloseB, s.(control := Finished, b := s.b.(closed := true));
    case Finished =>
      if s.a.ended {
        l, s' := EndB, s.(b := s.b.(ended := true));
      } else {
        l, s' := EndA, s.(a := s.a.(ended := true));
      }
  }

  /** How many steps the goroutines and the readers can still make on their own. */
  function Work(s: State): nat {
    2 * (|s.a.flying| + |s.b.flying|) + s.releasing
    + (match s.control
       case Pulling => 3
       case AcquireA => 9
       case AcquireB => 6
       case AcquireBoth => 3
       case CloseA => 2
       case CloseB => 1
       case Finished => 0)
    + (if s.a.ended then 0 else 1) + (if s.b.ended then 0 else 1)
  }

  /** The source has ended, or failed. */
  predicate Stopped(s: State) { s.control.AcquireBoth? || Closing(s.control) }

  /** What is left to do when the entries and the end of the source are counted as debts: every step
      settles one. */
  function Debt(s: State): int {
    Work(s) - 7 * s.pulled - if Stopped(s) then 1 else 0
  }

  lemma {:induction false} StepWork(s: State, l: Label, s': State)
    requires Inv(s) && Next(s, l, s')
    ensures Debt(s') == Debt(s) - 1
  {
    hide Start, Receive, Accounts;
    match l
    case StartA => StartAccounts(s.a, s.pulled - 1);
    case StartB => StartAccounts(s.b, s.pulled - 1);
    case DeliverA(k) => ReceiveAccounts(s.a, StartedA(s), k);
    case DeliverB(k) => ReceiveAccounts(s.b, StartedB(s), k);
    case _ =>
  }

  lemma {:induction false} InitDebt(s: State)
    requires Init(s)
    ensures Debt(s) == 5
  {
  }

  lemma {:induction false} RunDebt(states: seq<State>, labels: seq<Label>, k: nat)
    requires IsRun(states, labels) && k < |states|
    ensures k + Debt(states[k]) == 5
  {
    hide Next, Init, Debt, Inv;
    if k == 0 {
      InitDebt(states[0]);
    } else {
      RunDebt(states, labels, k - 1);
      RunInv(states, labels, k - 1);
      assert Next(states[k - 1], labels[k - 1], states[k - 1 + 1]);
      StepWork(states[k - 1], labels[k - 1], states[k]);
    }
  }

  /** Every run makes exactly seven steps for each entry, one for the end of the source and five behind it,
      but for those that are still to come: over a finite source, every run comes to its end. */
  lemma {:induction false} RunLength(states: seq<State>, labels: seq<Label>, k: nat)
    requires IsRun(states, labels) && k < |states|
    ensures
      var s := states[k];
      k + Work(s) == 5 + 7 * s.pulled + (if Stopped(s) then 1 else 0)
  {
    hide IsRun, Work, Stopped;
    RunDebt(states, labels, k);
  }

  // ----- How far it goes without its readers ---------------------------------------------------

  /** A run makes one more step. */
  lemma {:induction false} Extend(states: seq<State>, labels: seq<Label>, l: Label, s: State)
    requires IsRun(states, labels) && Next(states[|labels|], l, s)
    ensures IsRun(states + [s], labels + [l])
  {
    hide Next, Init;
    var more, ls := states + [s], labels + [l];
    forall i | 0 <= i < |ls|
      ensures Next(more[i], ls[i], more[i + 1])
    {
      if i < |labels| {
        assert Next(states[i], labels[i], states[i + 1]);
      }
    }
  }

  lemma {:induction false} Then(states: seq<State>, labels: seq<Label>, l: Label, s: State)
    returns (states': seq<State>, labels': seq<Label>)
    requires IsRun(states, labels) && Next(states[|labels|], l, s)
    ensures IsRun(states', labels') && labels' == labels + [l] && states'[|labels'|] == s
  {
    hide Next;
    Extend(states, labels, l, s);
    states', labels' := states + [s], labels + [l];
  }

  /** The source is pulled whenever the last entry has been sent off, permits or not, and each send that has
      been started can be received at any time. */
  lemma {:induction false} NobodyWaitsForTurns(s: State)
    ensures s.control.Pulling? ==>
      && Next(s, Pull, s.(control := AcquireA, pulled := s.pulled + 1))
      && Next(s, Stop, s.(control := AcquireBoth))
    ensures forall k :: k in s.a.flying ==>
      Next(s, DeliverA(k), s.(a := Receive(s.a, k), releasing := s.releasing + 1))
    ensures forall k :: k in s.b.flying ==>
      Next(s, DeliverB(k), s.(b := Receive(s.b, k), releasing := s.releasing + 1))
  {
    hide Receive;
  }

  /** The first entry is on its way to both outputs. */
  lemma {:induction false} FirstSent() returns (states: seq<State>, labels: seq<Label>)
    ensures IsRun(states, labels) && (forall i :: 0 <= i < |labels| ==> !labels[i].DeliverA? && !labels[i].DeliverB?)
    ensures
      states[|labels|]
      == State(Pulling, 1, 0, 0, Output({0}, [], false, false), Output({0}, [], false, false))
  {
    var s0 := State(Pulling, 0, PERMITS, 0, NO_OUTPUT, NO_OUTPUT);
    var s1 := s0.(control := AcquireA, pulled := 1);
    var s2 := s1.(control := AcquireB, permits := 1, a := Start(NO_OUTPUT, 0));
    var s3 := s2.(control := Pulling, permits := 0, b := Start(NO_OUTPUT, 0));
    states, labels := [s0], [];
    assert IsRun(states, labels);
    hide IsRun;
    states, labels := Then(states, labels, Pull, s1);
    states, labels := Then(states, labels, StartA, s2);
    states, labels := Then(states, labels, StartB, s3);
  }

  /** The bounds for a single reader are reached: without a reader of the second output the first can get
      two entries, and the third is pulled. */
  lemma {:induction false} TwoForTheFirst() returns (states: seq<State>, labels: seq<Label>)
    ensures IsRun(states, labels) && (forall i :: 0 <= i < |labels| ==> !labels[i].DeliverB?)
    ensures states[|labels|].a.delivered == [0, 1] && states[|labels|].pulled == 3
  {
    states, labels := FirstSent();
    var s := states[|labels|];
    hide IsRun;
    var s1 := s.(a := Receive(s.a, 0), releasing := 1);
    var s2 := s1.(releasing := 0, permits := 1);
    var s3 := s2.(control := AcquireA, pulled := 2);
    var s4 := s3.(control := AcquireB, permits := 0, a := Start(s3.a, 1));
    var s5 := s4.(a := Receive(s4.a, 1), releasing := 1);
    var s6 := s5.(releasing := 0, permits := 1);
    var s7 := s6.(control := Pulling, permits := 0, b := Start(s6.b, 1));
    states, labels := Then(states, labels, DeliverA(0), s1);
    states, labels := Then(states, labels, Release, s2);
    states, labels := Then(states, labels, Pull, s3);
    states, labels := Then(states, labels, StartA, s4);
    states, labels := Then(states, labels, DeliverA(1), s5);
    states, labels := Then(states, labels, Release, s6);
    states, labels := Then(states, labels, StartB, s7);
    states, labels := Then(states, labels, Pull, s7.(control := AcquireA, pulled := 3));
  }

  /** Without a reader of the first, the second can get one, and the second entry is pulled. */
  lemma {:induction false} OneForTheSecond() returns (states: seq<State>, labels: seq<Label>)
    ensures IsRun(states, labels) && (forall i :: 0 <= i < |labels| ==> !labels[i].DeliverA?)
    ensures states[|labels|].b.delivered == [0] && states[|labels|].pulled == 2
  {
    states, labels := FirstSent();
    var s := states[|labels|];
    hide IsRun;
    var s1 := s.(b := Receive(s.b, 0), releasing := 1);
    states, labels := Then(states, labels, DeliverB(0), s1);
    states, labels := Then(states, labels, Pull, s1.(control := AcquireA, pulled := 2));
  }
}
