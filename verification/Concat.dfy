/** Concat: one stream behind another, with the indices of the second moved behind those of the first. */
module Concat {
  import opened Iterators

  datatype Item = Entry(e: nat, index: int) | Error(err: Err)

  /** Iterators as values: what is left of a source, or a concatenation and the number of entries that its
      base has given; Again is that of an iterator behind itself. A source that is used up ends for ever. */
  datatype Stream = Rest(items: seq<Item>) | Cat(base: Stream, next: Stream, idx: int) | Again(base: Stream, idx: int)

  function Moved(i: Item, offset: int): Item {
    if i.Entry? then Entry(i.e, i.index + offset) else i
  }

  function Depth(s: Stream): nat {
    match s
    case Rest(_) => 0
    case Cat(base, next, _) => Depth(base) + Depth(next) + 1
    case Again(base, _) => Depth(base) + 1
  }

  /** One call: what it returns, and the stream that is left. */
  function Call(s: Stream): (c: (Item, Stream))
    ensures Depth(c.1) == Depth(s)
    decreases Depth(s)
  {
    match s
    case Rest(items) => if items == [] then (Error(AtEnd), s) else (items[0], Rest(items[1..]))
    case Cat(base, next, idx) =>
      var (r, base') := Call(base);
      if r.Entry? then (r, Cat(base', next, idx + 1))
      else if r.err != AtEnd then (r, Cat(base', next, idx))
      else
        var (r', next') := Call(next);
        (Moved(r', idx), Cat(base', next', idx))
    case Again(base, idx) =>
      var (r, base') := Call(base);
      if r.Entry? then (r, Again(base', idx + 1))
      else if r.err != AtEnd then (r, Again(base', idx))
      else
        var (r', base'') := Call(base');
        (Moved(r', idx), Again(base'', idx))
  }

  /** The results of the next n calls. */
  function Results(s: Stream, n: nat): (rs: seq<Item>)
    ensures |rs| == n
    decreases n
  {
    if n == 0 then [] else [Call(s).0] + Results(Call(s).1, n - 1)
  }

  /** What is left after n calls. */
  function After(s: Stream, n: nat): Stream
    decreases n
  {
    if n == 0 then s else After(Call(s).1, n - 1)
  }

  /** A source, or a concatenation of two iterators: of two that have nothing in common, or of one with
      itself. */
  class Iter {
    var items: seq<Item>
    const base: Iter?
    const next: Iter?
    var idx: int
    ghost const parts: set<Iter>
    ghost const height: nat

    ghost predicate Valid()
      decreases height
    {
      && this in parts && (base == null <==> next == null)
      && (base != null ==>
            && Part(base) && Part(next) && (base == next || base.parts !! next.parts)
            && base.Valid() && next.Valid())
    }

    ghost predicate Part(other: Iter) {
      other.parts <= parts && this !in other.parts && other.height < height
    }

    ghost function Model(): Stream
      requires Valid()
      reads parts
      decreases height
    {
      if base == null then Rest(items)
      else if base == next then Again(base.Model(), idx)
      else Cat(base.Model(), next.Model(), idx)
    }

    constructor Source(items: seq<Item>)
      ensures Valid() && Model() == Rest(items) && fresh(parts)
    {
      this.items, base, next, idx := items, null, null, 0;
      parts, height := {this}, 0;
    }

    constructor Concat(base: Iter, next: Iter)
      requires base.Valid() && next.Valid() && (base == next || base.parts !! next.parts)
      ensures Valid() && fresh(parts - base.parts - next.parts)
      ensures Model() == if base == next then Again(base.Model(), 0) else Cat(base.Model(), next.Model(), 0)
    {
      items, this.base, this.next, idx := [], base, next, 0;
      parts, height := {this} + base.parts + next.parts, base.height + next.height + 1;
    }

    method Next() returns (i: Item)
      requires Valid()
      modifies parts
      ensures (i, Model()) == Call(old(Model()))
      decreases height
    {
      if base == null {
        if items == [] {
          return Error(AtEnd);
        }
        i := items[0];
        items := items[1..];
        return;
      }
      i := base.Next();
      if i.Error? {
        if i.err == AtEnd {
          i := next.Next();
          if i.Error? {
            return i;
          }
          return Entry(i.e, i.index + idx);
        }
        return i;
      }
      idx := idx + 1;
    }
  }

  /** Two ways to put three streams behind each other, in the middle of reading them. */
  predicate SameOrder(x: Stream, y: Stream) {
    && x.Cat? && x.base.Cat? && y.Cat? && y.next.Cat?
    && x.base.base == y.base && x.base.next == y.next.base && x.next == y.next.next
    && x.base.idx == y.idx && x.idx == y.idx + y.next.idx
  }

  lemma {:induction false} SameCall(x: Stream, y: Stream)
    requires SameOrder(x, y)
    ensures Call(x).0 == Call(y).0 && SameOrder(Call(x).1, Call(y).1)
  {
  }

  lemma {:induction false} SameResults(x: Stream, y: Stream, n: nat)
    requires SameOrder(x, y)
    ensures Results(x, n) == Results(y, n)
    decreases n
  {
    hide Call;
    if 0 < n {
      SameCall(x, y);
      SameResults(Call(x).1, Call(y).1, n - 1);
    }
  }

  /** Concat is associative, call by call and with its indices, whatever the streams give and whatever
      errors they stop and go on with. */
  lemma {:induction false} Associative(a: Stream, b: Stream, c: Stream, n: nat)
    ensures Results(Cat(Cat(a, b, 0), c, 0), n) == Results(Cat(a, Cat(b, c, 0), 0), n)
  {
    SameResults(Cat(Cat(a, b, 0), c, 0), Cat(a, Cat(b, c, 0), 0), n);
  }

  /** Only the end of the first stream leads to the second: any other error is what the call returns. The
      second stream is left as it was, and the first goes on behind the error. */
  lemma {:induction false} ErrorsComeThrough(es: seq<nat>, from: int, k: nat, behind: seq<Item>, next: Stream,
                                             idx: int)
    ensures
      var first := Numbered(es, from) + [Error(Broken(k))];
      && Results(Cat(Rest(first + behind), next, idx), |es| + 1) == first
      && After(Cat(Rest(first + behind), next, idx), |es| + 1) == Cat(Rest(behind), next, idx + |es|)
    decreases |es|
  {
    var first := Numbered(es, from) + [Error(Broken(k))];
    var s := Cat(Rest(first + behind), next, idx);
    if es == [] {
      assert Call(s) == (Error(Broken(k)), Cat(Rest(behind), next, idx)) by {
        assert (first + behind)[0] == Error(Broken(k)) && (first + behind)[1..] == behind;
      }
      assert Results(Cat(Rest(behind), next, idx), 0) == [];
    } else {
      var more := Numbered(es[1..], from + 1) + [Error(Broken(k))];
      assert Call(s) == (Entry(es[0], from), Cat(Rest(more + behind), next, idx + 1)) by {
        assert (first + behind)[0] == Entry(es[0], from) && (first + behind)[1..] == more + behind;
      }
      ErrorsComeThrough(es[1..], from + 1, k, behind, next, idx + 1);
    }
  }

  /** A source behind itself gives what it gives alone, if it has no end but its last. */
  lemma {:induction false} AgainGivesOnce(items: seq<Item>, idx: int, n: nat)
    requires Error(AtEnd) !in items
    ensures Results(Again(Rest(items), idx), n) == Results(Rest(items), n)
    decreases n
  {
    if 0 < n {
      var rest := if items == [] then [] else items[1..];
      AgainGivesOnce(rest, if items != [] && items[0].Entry? then idx + 1 else idx, n - 1);
    }
  }

  /** Entries, each with its place as its index, from the given place on. */
  function Numbered(es: seq<nat>, from: int): (items: seq<Item>)
    ensures |items| == |es|
  {
    if es == [] then [] else [Entry(es[0], from)] + Numbered(es[1..], from + 1)
  }

  function Ends(n: nat): (items: seq<Item>)
    ensures |items| == n
  {
    if n == 0 then [] else [Error(AtEnd)] + Ends(n - 1)
  }

  lemma {:induction false} NumberedConcat(xs: seq<nat>, ys: seq<nat>, from: int)
    ensures Numbered(xs + ys, from) == Numbered(xs, from) + Numbered(ys, from + |xs|)
  {
    if xs == [] {
      assert xs + ys == ys;
    } else {
      NumberedConcat(xs[1..], ys, from + 1);
      assert (xs + ys)[1..] == xs[1..] + ys;
    }
  }

  lemma {:induction false} SecondPart(es: seq<nat>, from: int, idx: int, more: nat)
    ensures Results(Cat(Rest([]), Rest(Numbered(es, from)), idx), |es| + more)
         == Numbered(es, from + idx) + Ends(more)
    decreases |es| + more
  {
    var s := Cat(Rest([]), Rest(Numbered(es, from)), idx);
    if es != [] {
      SecondPart(es[1..], from + 1, idx, more);
      assert Call(s) == (Entry(es[0], from + idx), Cat(Rest([]), Rest(Numbered(es[1..], from + 1)), idx));
    } else if 0 < more {
      SecondPart(es, from, idx, more - 1);
      assert Call(s) == (Error(AtEnd), s);
    }
  }

  lemma {:induction false} FirstCall(xs: seq<nat>, next: Stream, from: int, idx: int)
    requires xs != []
    ensures Call(Cat(Rest(Numbered(xs, from)), next, idx))
         == (Entry(xs[0], from), Cat(Rest(Numbered(xs[1..], from + 1)), next, idx + 1))
  {
  }

  lemma {:induction false} FirstPart(xs: seq<nat>, ys: seq<nat>, from: int, idx: int, more: nat)
    ensures Results(Cat(Rest(Numbered(xs, from)), Rest(Numbered(ys, 0)), idx), |xs| + |ys| + more)
         == Numbered(xs, from) + (Numbered(ys, idx + |xs|) + Ends(more))
    decreases |xs|
  {
    hide Call, Ends;
    var behind := Numbered(ys, idx + |xs|) + Ends(more);
    if xs == [] {
      SecondPart(ys, 0, idx, more);
      assert Numbered(xs, from) + behind == behind;
    } else {
      FirstPart(xs[1..], ys, from + 1, idx + 1, more);
      FirstCall(xs, Rest(Numbered(ys, 0)), from, idx);
      hide Numbered;
      assert [Entry(xs[0], from)] + (Numbered(xs[1..], from + 1) + behind)
        == [Entry(xs[0], from)] + Numbered(xs[1..], from + 1) + behind;
    }
  }

  /** Streams that are numbered from zero give, one behind the other, all entries numbered from zero, and
      then the end for ever. */
  lemma {:induction false} Contiguous(xs: seq<nat>, ys: seq<nat>, more: nat)
    ensures Results(Cat(Rest(Numbered(xs, 0)), Rest(Numbered(ys, 0)), 0), |xs| + |ys| + more)
         == Numbered(xs + ys, 0) + Ends(more)
  {
    hide Results, Call, Numbered, Ends;
    FirstPart(xs, ys, 0, 0, more);
    NumberedConcat(xs, ys, 0);
    assert Numbered(xs, 0) + (Numbered(ys, |xs|) + Ends(more)) == Numbered(xs, 0) + Numbered(ys, |xs|) + Ends(more);
  }
}
