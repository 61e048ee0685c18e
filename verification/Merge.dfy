/** The merge protocol: two feeders, a forwarder that selects between them, and the reader of the output. */
module Merge {
  import opened Shuffles

  /** The goroutine that feeds a source into a channel: what it has pulled, whether the last of it is
      still in its hand, and whether it has seen the end (or an error) and closed the channel. */
  datatype Feed = Feed(pulled: seq<Entry>, inHand: bool, closed: bool)

  /** The goroutine between the channels; a channel that it has seen closed is no longer open to it. */
  datatype Forwarder =
    | Select(openA: bool, openB: bool)
    | Forward(e: Entry, openA: bool, openB: bool)
    | Closed

  /** trace records what the forwarder received, in its order; it is history only. */
  datatype State = State(
    a: Feed, b: Feed, forwarder: Forwarder, trace: Trace,
    delivered: seq<(Entry, nat)>, next: nat, ended: bool)

  datatype Label =
    | PullA(e: Entry) | PullB(e: Entry) | StopA | StopB
    | ReceiveA | ReceiveB | SeeClosedA | SeeClosedB
    | Deliver(e: Entry, index: nat) | CloseOut | SeeEnd

  predicate Init(s: State) {
    s == State(Feed([], false, false), Feed([], false, false), Select(true, true), [], [], 0, false)
  }

  function Last(f: Feed): Entry
    requires f.pulled != []
  {
    f.pulled[|f.pulled| - 1]
  }

  /** One step. Channels are unbuffered: a send and its receive are one step. */
  predicate Next(s: State, l: Label, s': State) {
    match l
    case PullA(e) => !s.a.inHand && !s.a.closed && s' == s.(a := Feed(s.a.pulled + [e], true, false))
    case PullB(e) => !s.b.inHand && !s.b.closed && s' == s.(b := Feed(s.b.pulled + [e], true, false))
    case StopA => !s.a.inHand && !s.a.closed && s' == s.(a := s.a.(closed := true))
    case StopB => !s.b.inHand && !s.b.closed && s' == s.(b := s.b.(closed := true))
    case ReceiveA =>
      && s.forwarder.Select? && s.forwarder.openA && s.a.inHand && s.a.pulled != []
      && s' == s.(a := s.a.(inHand := false),
                  forwarder := Forward(Last(s.a), s.forwarder.openA, s.forwarder.openB),
                  trace := s.trace + [(A, Last(s.a))])
    case ReceiveB =>
      && s.forwarder.Select? && s.forwarder.openB && s.b.inHand && s.b.pulled != []
      && s' == s.(b := s.b.(inHand := false),
                  forwarder := Forward(Last(s.b), s.forwarder.openA, s.forwarder.openB),
                  trace := s.trace + [(B, Last(s.b))])
    case SeeClosedA =>
      && s.forwarder.Select? && s.forwarder.openA && s.a.closed
      && s' == s.(forwarder := Select(false, s.forwarder.openB))
    case SeeClosedB =>
      && s.forwarder.Select? && s.forwarder.openB && s.b.closed
      && s' == s.(forwarder := Select(s.forwarder.openA, false))
    case Deliver(e, index) =>
      && s.forwarder.Forward? && s.forwarder.e == e && s.next == index
      && s' == s.(forwarder := Select(s.forwarder.openA, s.forwarder.openB),
                  delivered := s.delivered + [(e, index)], next := s.next + 1)
    case CloseOut => s.forwarder == Select(false, false) && s' == s.(forwarder := Closed)
    case SeeEnd => s.forwarder.Closed? && !s.ended && s' == s.(ended := true)
  }

  /** What a feeder has handed over. */
  function Sent(f: Feed): seq<Entry>
    requires f.inHand ==> f.pulled != []
  {
    if f.inHand then f.pulled[..|f.pulled| - 1] else f.pulled
  }

  function Entries(delivered: seq<(Entry, nat)>): (r: seq<Entry>)
    ensures |r| == |delivered|
  {
    if delivered == [] then [] else Entries(delivered[..|delivered| - 1]) + [delivered[|delivered| - 1].0]
  }

  function InTransit(f: Forwarder): seq<Entry> {
    if f.Forward? then [f.e] else []
  }

  ghost predicate Inv(s: State) {
    && (s.a.inHand ==> s.a.pulled != [] && !s.a.closed)
    && (s.b.inHand ==> s.b.pulled != [] && !s.b.closed)
    && Of(s.trace, A) == Sent(s.a) && Of(s.trace, B) == Sent(s.b)
    && Untag(s.trace) == Entries(s.delivered) + InTransit(s.forwarder)
    && s.next == |s.delivered| && (forall k :: 0 <= k < |s.delivered| ==> s.delivered[k].1 == k)
    && (s.forwarder.Closed? || !s.forwarder.openA ==> s.a.closed)
    && (s.forwarder.Closed? || !s.forwarder.openB ==> s.b.closed)
    && (s.ended ==> s.forwarder.Closed?)
  }

  lemma {:induction false} InitInv(s: State)
    requires Init(s)
    ensures Inv(s)
  {
  }

  lemma {:induction false} ReceiveInv(s: State, l: Label, s': State)
    requires Inv(s) && Next(s, l, s') && (l.ReceiveA? || l.ReceiveB?)
    ensures Inv(s')
  {
    hide Untag, Of, Entries;
    if l.ReceiveA? {
      TraceAppend(s.trace, A, Last(s.a));
    } else {
      TraceAppend(s.trace, B, Last(s.b));
    }
  }

  lemma {:induction false} StepInv(s: State, l: Label, s': State)
    requires Inv(s) && Next(s, l, s')
    ensures Inv(s')
  {
    hide Untag, Of, Entries;
    match l
    case ReceiveA => ReceiveInv(s, l, s');
    case ReceiveB => ReceiveInv(s, l, s');
    case Deliver(e, index) => EntriesAppend(s.delivered, (e, index));
    case PullA(_) =>
    case PullB(_) =>
    case _ =>
  }

  lemma {:induction false} EntriesAppend(delivered: seq<(Entry, nat)>, d: (Entry, nat))
    ensures Entries(delivered + [d]) == Entries(delivered) + [d.0]
  {
  }

  /** What a step takes from the sources. */
  lemma {:induction false} Effect(s: State, l: Label, s': State)
    requires Next(s, l, s')
    ensures s'.a.pulled == (if l.PullA? then s.a.pulled + [l.e] else s.a.pulled)
    ensures s'.b.pulled == (if l.PullB? then s.b.pulled + [l.e] else s.b.pulled)
    ensures s'.a.closed == (l.StopA? || s.a.closed) && s'.b.closed == (l.StopB? || s.b.closed)
  {
  }

  // ----- Whole runs ----------------------------------------------------------------------------

  ghost predicate IsRun(states: seq<State>, labels: seq<Label>)
    ensures IsRun(states, labels) ==> |states| == |labels| + 1
  {
    && |states| == |labels| + 1 && Init(states[0])
    && forall i :: 0 <= i < |labels| ==> Next(states[i], labels[i], states[i + 1])
  }

  lemma {:induction false} RunInv(states: seq<State>, labels: seq<Label>, k: nat)
    requires IsRun(states, labels) && k < |states|
    ensures Inv(states[k])
  {
    hide Next, Init, Inv;
    if k == 0 {
      InitInv(states[0]);
    } else {
      RunInv(states, labels, k - 1);
      assert Next(states[k - 1], labels[k - 1], states[k - 1 + 1]);
      StepInv(states[k - 1], labels[k - 1], states[k]);
    }
  }

  /** In every state of every run: what was delivered or is on its way is an interleaving of a prefix of
      each input, in their orders, and the indices are 0, 1, 2 and so on. The output is closed only when
      both inputs have ended and all of their entries have been delivered. */
  lemma {:induction false} MergeInterleaves(states: seq<State>, labels: seq<Label>, k: nat)
    requires IsRun(states, labels) && k < |states|
    ensures
      var s := states[k];
      && (s.a.inHand ==> s.a.pulled != []) && (s.b.inHand ==> s.b.pulled != [])
      && Sent(s.a) <= s.a.pulled && Sent(s.b) <= s.b.pulled
      && IsShuffle(Entries(s.delivered) + InTransit(s.forwarder), Sent(s.a), Sent(s.b))
      && (forall j :: 0 <= j < |s.delivered| ==> s.delivered[j].1 == j)
      && (s.forwarder.Closed? ==>
            s.a.closed && s.b.closed && IsShuffle(Entries(s.delivered), s.a.pulled, s.b.pulled))
      && (s.ended ==> s.forwarder.Closed?)
  {
    hide IsRun, Untag, Of, Entries;
    RunInv(states, labels, k);
    var s := states[k];
    if s.forwarder.Closed? {
      assert Entries(s.delivered) + [] == Entries(s.delivered);
    }
  }

  /** The steps of the sources; all others are those of the goroutines and of the reader. */
  predicate FromSource(l: Label) { l.PullA? || l.PullB? || l.StopA? || l.StopB? }

  predicate Waits(f: Feed) { !f.inHand && !f.closed }

  /** Merge never waits for anything but a source: as long as the reader reads on, some other step is
      possible unless the end was seen or a source is being waited for. */
  lemma {:induction false} OnlySourcesAreWaitedFor(s: State) returns (l: Label, s': State)
    requires Inv(s) && !s.ended && !Waits(s.a) && !Waits(s.b)
    ensures Next(s, l, s') && !FromSource(l)
  {
    hide Untag, Of, Entries;
    match s.forwarder
    case Closed =>
      l, s' := SeeEnd, s.(ended := true);
    case Forward(e, openA, openB) =>
      l := Deliver(e, s.next);
      s' := s.(forwarder := Select(openA, openB), delivered := s.delivered + [(e, s.next)], next := s.next + 1);
    case Select(openA, openB) =>
      if openA && s.a.inHand {
        l := ReceiveA;
        s' := s.(a := s.a.(inHand := false), forwarder := Forward(Last(s.a), openA, openB),
                 trace := s.trace + [(A, Last(s.a))]);
      } else if openA {
        l, s' := SeeClosedA, s.(forwarder := Select(false, openB));
      } else if openB && s.b.inHand {
        l := ReceiveB;
        s' := s.(b := s.b.(inHand := false), forwarder := Forward(Last(s.b), openA, openB),
                 trace := s.trace + [(B, Last(s.b))]);
      } else if openB {
        l, s' := SeeClosedB, s.(forwarder := Select(openA, false));
      } else {
        l, s' := CloseOut, s.(forwarder := Closed);
      }
  }

  /** How often the entries that a forwarder can still receive, and its channels, move it on. */
  function ForwarderWork(f: Forwarder): nat {
    match f
    case Closed => 0
    case Select(openA, openB) => 1 + (if openA then 1 else 0) + (if openB then 1 else 0)
    case Forward(_, openA, openB) => 2 + (if openA then 1 else 0) + (if openB then 1 else 0)
  }

  /** How many steps the goroutines and the reader can still make on their own. */
  function Work(s: State): nat {
    (if s.a.inHand then 2 else 0) + (if s.b.inHand then 2 else 0)
    + ForwarderWork(s.forwarder) + (if s.ended then 0 else 1)
  }

  function Stops(s: State): nat {
    (if s.a.closed then 1 else 0) + (if s.b.closed then 1 else 0)
  }

  /** What is left to do when the entries and the ends of the sources are counted as debts: every step
      settles one. */
  function Debt(s: State): int {
    Work(s) - 3 * (|s.a.pulled| + |s.b.pulled|) - Stops(s)
  }

  lemma {:induction false} StepWork(s: State, l: Label, s': State)
    requires Next(s, l, s')
    ensures Debt(s') == Debt(s) - 1
  {
    hide Last;
    match l
    case PullA(_) =>
    case PullB(_) =>
    case StopA =>
    case StopB =>
    case ReceiveA =>
    case ReceiveB =>
    case Deliver(_, _) =>
    case _ =>
  }

  /** A step settles one debt, and takes one thing from a source if it is a source's step. */
  lemma {:induction false} StepTakes(s: State, l: Label, s': State)
    requires Next(s, l, s')
    ensures Debt(s') == Debt(s) - 1
    ensures |s'.a.pulled| + |s'.b.pulled| + Stops(s')
         == |s.a.pulled| + |s.b.pulled| + Stops(s) + if FromSource(l) then 1 else 0
  {
    hide Debt;
    StepWork(s, l, s');
  }

  lemma {:induction false} InitDebt(s: State)
    requires Init(s)
    ensures Debt(s) == 4
  {
  }

  lemma {:induction false} RunDebt(states: seq<State>, labels: seq<Label>, k: nat)
    requires IsRun(states, labels) && k < |states|
    ensures k + Debt(states[k]) == 4
  {
    hide Next, Init, Debt;
    if k == 0 {
      InitDebt(states[0]);
    } else {
      RunDebt(states, labels, k - 1);
      assert Next(states[k - 1], labels[k - 1], states[k - 1 + 1]);
      StepWork(states[k - 1], labels[k - 1], states[k]);
    }
  }

  /** Every run makes exactly three steps for each entry and one for each end, but for those that are
      still to come: over finite inputs, every run comes to its end. */
  lemma {:induction false} RunLength(states: seq<State>, labels: seq<Label>, k: nat)
    requires IsRun(states, labels) && k < |states|
    ensures
      var s := states[k];
      k + Work(s) == 4 + 3 * (|s.a.pulled| + |s.b.pulled|) + Stops(s)
  {
    hide IsRun, Work, Stops;
    RunDebt(states, labels, k);
  }

  // ----- Every interleaving is possible --------------------------------------------------------

  /** No source and no feeder waits for its turn: in every state, a source that is waited for can give any
      entry or end, and a forwarder that selects can receive from each channel that has something for it. */
  lemma {:induction false} NobodyWaitsForTurns(s: State, e: Entry)
    requires Inv(s)
    ensures Waits(s.a) ==>
      && Next(s, PullA(e), s.(a := Feed(s.a.pulled + [e], true, false)))
      && Next(s, StopA, s.(a := s.a.(closed := true)))
    ensures Waits(s.b) ==>
      && Next(s, PullB(e), s.(b := Feed(s.b.pulled + [e], true, false)))
      && Next(s, StopB, s.(b := s.b.(closed := true)))
    ensures s.forwarder.Select? && s.a.inHand ==>
      && s.a.pulled != []
      && var got := s.(a := s.a.(inHand := false), trace := s.trace + [(A, Last(s.a))]);
         Next(s, ReceiveA, got.(forwarder := Forward(Last(s.a), s.forwarder.openA, s.forwarder.openB)))
    ensures s.forwarder.Select? && s.b.inHand ==>
      && s.b.pulled != []
      && var got := s.(b := s.b.(inHand := false), trace := s.trace + [(B, Last(s.b))]);
         Next(s, ReceiveB, got.(forwarder := Forward(Last(s.b), s.forwarder.openA, s.forwarder.openB)))
  {
    hide Untag, Of, Entries;
  }

  /** A run makes one more step. */
  lemma {:induction false} Then(states: seq<State>, labels: seq<Label>, l: Label, s: State)
    returns (states': seq<State>, labels': seq<Label>)
    requires IsRun(states, labels) && Next(states[|labels|], l, s)
    ensures IsRun(states', labels') && states'[|labels'|] == s && labels' == labels + [l]
  {
    hide Next, Init;
    states', labels' := states + [s], labels + [l];
    forall i | 0 <= i < |labels'|
      ensures Next(states'[i], labels'[i], states'[i + 1])
    {
      if i < |labels| {
        assert Next(states[i], labels[i], states[i + 1]);
      }
    }
  }

  const BOTH_OPEN := Select(true, true)

  /** Entries of either side, pulled, received and delivered one after the other. */
  lemma {:induction false} DeliverAll(t: Trace) returns (states: seq<State>, labels: seq<Label>)
    ensures IsRun(states, labels)
    ensures
      var s := states[|labels|];
      && s == State(Feed(Of(t, A), false, false), Feed(Of(t, B), false, false), BOTH_OPEN, t, s.delivered, |t|, false)
      && Entries(s.delivered) == Untag(t)
  {
    hide IsRun, Untag, Of, Entries;
    if t == [] {
      states, labels := NoSteps();
    } else {
      var front := t[..|t| - 1];
      var (side, e) := t[|t| - 1];
      states, labels := DeliverAll(front);
      TraceAppend(front, side, e);
      assert t == front + [(side, e)];
      states, labels := DeliverOne(states, labels, side, e);
    }
  }

  lemma {:induction false} NoSteps() returns (states: seq<State>, labels: seq<Label>)
    ensures IsRun(states, labels) && Untag([]) == [] && Of([], A) == [] && Of([], B) == [] && Entries([]) == []
    ensures states[|labels|] == State(Feed([], false, false), Feed([], false, false), BOTH_OPEN, [], [], 0, false)
  {
    states, labels := [State(Feed([], false, false), Feed([], false, false), BOTH_OPEN, [], [], 0, false)], [];
  }

  lemma {:induction false} DeliverOne(states: seq<State>, labels: seq<Label>, side: Side, e: Entry)
    returns (states': seq<State>, labels': seq<Label>)
    requires IsRun(states, labels)
    requires
      var s := states[|labels|];
      s.forwarder == BOTH_OPEN && Waits(s.a) && Waits(s.b)
    ensures IsRun(states', labels')
    ensures
      var s, s' := states[|labels|], states'[|labels'|];
      && s' == s.(a := if side == A then Feed(s.a.pulled + [e], false, false) else s.a,
                  b := if side == B then Feed(s.b.pulled + [e], false, false) else s.b,
                  trace := s.trace + [(side, e)], delivered := s.delivered + [(e, s.next)], next := s.next + 1)
      && Entries(s'.delivered) == Entries(s.delivered) + [e]
  {
    hide IsRun, Entries;
    var s := states[|labels|];
    EntriesAppend(s.delivered, (e, s.next));
    var pulled, got;
    if side == A {
      pulled := s.(a := Feed(s.a.pulled + [e], true, false));
      got := pulled.(a := pulled.a.(inHand := false), forwarder := Forward(e, true, true),
                     trace := s.trace + [(A, e)]);
      states', labels' := Then(states, labels, PullA(e), pulled);
      states', labels' := Then(states', labels', ReceiveA, got);
    } else {
      pulled := s.(b := Feed(s.b.pulled + [e], true, false));
      got := pulled.(b := pulled.b.(inHand := false), forwarder := Forward(e, true, true),
                     trace := s.trace + [(B, e)]);
      states', labels' := Then(states, labels, PullB(e), pulled);
      states', labels' := Then(states', labels', ReceiveB, got);
    }
    var out := got.(forwarder := BOTH_OPEN, delivered := s.delivered + [(e, s.next)], next := s.next + 1);
    states', labels' := Then(states', labels', Deliver(e, s.next), out);
  }

  /** Every interleaving of every two inputs can be what merge delivers, up to the end. */
  lemma {:induction false} AnyInterleaving(t: Trace) returns (states: seq<State>, labels: seq<Label>)
    ensures IsRun(states, labels)
    ensures
      var s := states[|labels|];
      && s.a == Feed(Of(t, A), false, true) && s.b == Feed(Of(t, B), false, true)
      && Entries(s.delivered) == Untag(t) && s.ended
  {
    hide IsRun, Untag, Of, Entries;
    states, labels := DeliverAll(t);
    var s := states[|labels|];
    var s1 := s.(a := s.a.(closed := true));
    var s2 := s1.(b := s1.b.(closed := true));
    var s3 := s2.(forwarder := Select(false, true));
    var s4 := s3.(forwarder := Select(false, false));
    var s5 := s4.(forwarder := Closed);
    states, labels := Then(states, labels, StopA, s1);
    states, labels := Then(states, labels, StopB, s2);
    states, labels := Then(states, labels, SeeClosedA, s3);
    states, labels := Then(states, labels, SeeClosedB, s4);
    states, labels := Then(states, labels, CloseOut, s5);
    states, labels := Then(states, labels, SeeEnd, s5.(ended := true));
  }

  /** What merge can deliver up to its end are exactly the interleavings of its inputs. */
  lemma {:induction false} InterleavingsIff(zs: seq<Entry>, xs: seq<Entry>, ys: seq<Entry>)
    ensures IsShuffle(zs, xs, ys) <==> exists states, labels :: EndsWith(states, labels, zs, xs, ys)
  {
    hide IsRun, Untag, Of, Entries;
    if t :| Untag(t) == zs && Of(t, A) == xs && Of(t, B) == ys {
      var states, labels := AnyInterleaving(t);
      assert EndsWith(states, labels, zs, xs, ys);
    }
    if states, labels :| EndsWith(states, labels, zs, xs, ys) {
      MergeInterleaves(states, labels, |labels|);
    }
  }

  /** The run reads both inputs to their ends, and its reader has seen the end of the output. */
  ghost predicate EndsWith(states: seq<State>, labels: seq<Label>, zs: seq<Entry>, xs: seq<Entry>, ys: seq<Entry>) {
    IsRun(states, labels) &&
    var s := states[|labels|];
    s.ended && s.a.pulled == xs && s.b.pulled == ys && Entries(s.delivered) == zs
  }

  /** Without a reader, merge pulls at most three entries. */
  lemma {:induction false} Unread(states: seq<State>, labels: seq<Label>, k: nat)
    requires IsRun(states, labels) && k < |states| && states[k].delivered == []
    ensures |states[k].a.pulled| + |states[k].b.pulled| <= 3
  {
    hide IsRun, Untag, Of, Entries;
    RunInv(states, labels, k);
    ShuffleLength(states[k].trace);
    assert Entries([]) == [] by { NoEntries(); }
  }

  lemma {:induction false} NoEntries()
    ensures Entries([]) == []
  {
  }

  lemma {:induction false} ShuffleLength(t: Trace)
    ensures |Untag(t)| == |Of(t, A)| + |Of(t, B)|
  {
    if t != [] {
      ShuffleLength(t[..|t| - 1]);
    }
  }

  /** And it does pull three of them, two from either source. */
  lemma {:induction false} UnreadPullsThree(e: Entry) returns (states: seq<State>, labels: seq<Label>)
    ensures IsRun(states, labels) && states[|labels|].delivered == []
    ensures |states[|labels|].a.pulled| == 2 && |states[|labels|].b.pulled| == 1
  {
    hide IsRun;
    states, labels := NoSteps();
    var s := states[|labels|];
    var s1 := s.(a := Feed([e], true, false));
    var s2 := s1.(a := Feed([e], false, false), forwarder := Forward(e, true, true), trace := [(A, e)]);
    var s3 := s2.(a := Feed([e, e], true, false));
    var s4 := s3.(b := Feed([e], true, false));
    states, labels := Then(states, labels, PullA(e), s1);
    states, labels := Then(states, labels, ReceiveA, s2);
    states, labels := Then(states, labels, PullA(e), s3);
    states, labels := Then(states, labels, PullB(e), s4);
  }
}
