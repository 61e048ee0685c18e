/** Interleavings of two sequences of log entries, and splits of one into two. */
module Shuffles {

  /** A log entry is known by its identity: the combinators pass references on. */
  type Entry = nat

  datatype Side = A | B

  /** Entries in one order, each with the side that it comes from or goes to. */
  type Trace = seq<(Side, Entry)>

  function Untag(t: Trace): (r: seq<Entry>)
    ensures |r| == |t|
  {
    if t == [] then [] else Untag(t[..|t| - 1]) + [t[|t| - 1].1]
  }

  /** The entries of one side, in their order. */
  function Of(t: Trace, side: Side): seq<Entry> {
    if t == [] then []
    else
      var front := Of(t[..|t| - 1], side);
      if t[|t| - 1].0 == side then front + [t[|t| - 1].1] else front
  }

  /** zs is an interleaving of xs and ys that keeps the order of both. */
  ghost predicate IsShuffle(zs: seq<Entry>, xs: seq<Entry>, ys: seq<Entry>) {
    exists t :: Untag(t) == zs && Of(t, A) == xs && Of(t, B) == ys
  }

  lemma {:induction false} TraceAppend(t: Trace, side: Side, e: Entry)
    ensures Untag(t + [(side, e)]) == Untag(t) + [e]
    ensures Of(t + [(side, e)], side) == Of(t, side) + [e]
    ensures forall other :: other != side ==> Of(t + [(side, e)], other) == Of(t, other)
  {
  }

  lemma {:induction false} TraceParts(t: Trace)
    ensures multiset(Untag(t)) == multiset(Of(t, A)) + multiset(Of(t, B))
  {
    if t != [] {
      var front, last := t[..|t| - 1], t[|t| - 1];
      TraceParts(front);
      TraceAppend(front, last.0, last.1);
      assert t == front + [last];
    }
  }

  /** An interleaving has the entries of both sides, each as often as it is in them. */
  lemma {:induction false} ShuffleConserves(zs: seq<Entry>, xs: seq<Entry>, ys: seq<Entry>)
    requires IsShuffle(zs, xs, ys)
    ensures multiset(zs) == multiset(xs) + multiset(ys)
    ensures |zs| == |xs| + |ys|
  {
    var t :| Untag(t) == zs && Of(t, A) == xs && Of(t, B) == ys;
    TraceParts(t);
    assert |multiset(zs)| == |multiset(xs)| + |multiset(ys)|;
  }
}
