/** The joiner: it pulls entries from an iterator, and writes the joined message into the first of each group. */
module Joiner {
  import opened Options
  import opened Iterators
  import opened JoinSpec

  /** An entry is shared by reference; only its message matters here. */
  class LogEntry {
    const identity: nat
    var message: Option<string>

    constructor (identity: nat, message: Option<string>)
      ensures this.identity == identity && this.message == message
    {
      this.identity, this.message := identity, message;
    }
  }

  datatype Item = Entry(e: LogEntry, index: int) | Error(err: Err)

  ghost function Owned(items: seq<Item>): (es: set<LogEntry>)
    ensures forall k :: 0 <= k < |items| && items[k].Entry? ==> items[k].e in es
  {
    if items == [] then {}
    else (if items[0].Entry? then {items[0].e} else {}) + Owned(items[1..])
  }

  ghost function LineOf(i: Item): Line
    reads if i.Entry? then {i.e} else {}
  {
    if i.Entry? then Line(i.e.identity, i.index, i.e.message) else Fault(i.err)
  }

  /** The lines that the items stand for, with the messages that their entries have now. */
  ghost function View(items: seq<Item>): (lines: seq<Line>)
    reads Owned(items)
    ensures |lines| == |items|
  {
    if items == [] then [] else [LineOf(items[0])] + View(items[1..])
  }

  /** No entry comes twice. */
  ghost predicate Distinct(items: seq<Item>) {
    items != [] ==>
      && (items[0].Entry? ==> items[0].e !in Owned(items[1..]))
      && Distinct(items[1..])
  }

  class Source {
    var items: seq<Item>

    constructor (items: seq<Item>)
      ensures this.items == items
    {
      this.items := items;
    }

    method Next() returns (i: Item)
      modifies this
      ensures i == if old(items) == [] then Error(AtEnd) else old(items)[0]
      ensures items == if old(items) == [] then [] else old(items)[1..]
    {
      if items == [] {
        return Error(AtEnd);
      }
      i := items[0];
      items := items[1..];
    }
  }

  class JoinerState {
    const iter: Source
    const matches: string -> bool
    var start: LogEntry?
    var idx: int
    var msg: string

    ghost function Pending(): set<LogEntry>
      reads this
    {
      if start == null then {} else {start}
    }

    /** Everything that this joiner may still write to. */
    ghost function Mine(): set<LogEntry>
      reads this, iter
    {
      Owned(iter.items) + Pending()
    }

    ghost predicate Valid()
      reads this
    {
      start == null ==> msg == ""
    }

    /** No entry is still to come that has come already. */
    ghost predicate Alone()
      reads this, iter
    {
      Distinct(iter.items) && Owned(iter.items) !! Pending()
    }

    ghost function Open(): Option<Group>
      reads this
    {
      if start == null then None else Some(Group(start.identity, idx, msg))
    }

    constructor (iter: Source, matches: string -> bool)
      ensures Valid() && Open() == None && this.iter == iter && this.matches == matches
      ensures Distinct(iter.items) ==> Alone()
    {
      this.iter, this.matches := iter, matches;
      start, idx, msg := null, 0, "";
    }

    function StartsMessage(e: LogEntry): bool
      reads e
    {
      e.message.Some? && matches(e.message.value)
    }

    method SetStart(e: LogEntry, index: int)
      requires start == null && msg == ""
      modifies this
      ensures start == e && Open() == Some(Group(e.identity, index, Text(e.message)))
    {
      start, idx := e, index;
      if e.message.Some? {
        msg := e.message.value;
      }
    }

    method AppendMessage(e: LogEntry)
      requires start != null
      modifies `msg
      ensures msg == if e.message.Some? then old(msg) + "\n" + e.message.value else old(msg)
    {
      if e.message.Some? {
        msg := msg + "\n" + e.message.value;
      }
    }

    method FinalizeEntry() returns (e: LogEntry, index: int)
      requires start != null
      modifies this, start
      ensures e == old(start) && index == old(idx) && e.message == Some(old(msg))
      ensures start == null && msg == ""
    {
      e, index := start, idx;
      e.message := Some(msg);
      start, idx := null, -1;
      msg := "";
    }

    /** What to do with one item: None to go on, or what the call returns. A message is written only into
        an entry that is returned; if the item is that same entry, its group starts with what was written. */
    method Handle(item: Item) returns (out: Option<Item>)
      requires Valid()
      modifies this, Pending()
      ensures Valid()
      ensures
        var s := StepOf(old(LineOf(item)), old(Open()), matches);
        && s.out == (if out.None? then None else Some(LineOf(out.value)))
        && Open() == (if out.Some? then Reopened(s.open, start, out.value) else s.open)
      ensures out.None? ==> forall e :: e in old(Pending()) ==> e.message == old(e.message)
      ensures out.Some? && out.value.Entry? ==> out.value.e in old(Pending())
      ensures out.Some? && out.value.Error? ==> old(Pending()) == {}
      ensures Pending() ==
        if item.Error? then {} else if old(start) == null || out.Some? then {item.e} else old(Pending())
    {
      if item.Error? {
        if start != null {
          var e, i := FinalizeEntry();
          return Some(Entry(e, i));
        }
        return Some(item);
      }
      if start != null {
        if StartsMessage(item.e) {
          var e, i := FinalizeEntry();
          SetStart(item.e, item.index);
          return Some(Entry(e, i));
        }
        AppendMessage(item.e);
        return None;
      }
      SetStart(item.e, item.index);
      return None;
    }

    /** One round of the loop below: takes an item, and returns what the call returns, or None to go on. */
    method Round() returns (r: Option<Item>)
      requires Valid()
      modifies this, iter, Mine()
      ensures Valid() && Mine() <= old(Mine())
      ensures iter.items == if old(iter.items) == [] then [] else old(iter.items)[1..]
      ensures
        var s := StepOf(old(Head(View(iter.items))), old(Open()), matches);
        && s.out == (if r.None? then None else Some(LineOf(r.value)))
        && Open() == (if r.Some? then Reopened(s.open, start, r.value) else s.open)
      ensures r.Some? && r.value.Entry? ==> r.value.e in old(Mine())
      ensures forall e: LogEntry :: old(allocated(e)) && !(r.Some? && IsEntry(r.value, e)) ==>
        e.message == old(e.message)
      ensures r.None? ==> View(iter.items) == old(Tail(View(iter.items)))
      ensures old(Alone()) ==>
        && Alone() && View(iter.items) == old(Tail(View(iter.items)))
        && (r.Some? && r.value.Entry? ==> r.value.e !in Mine())
    {
      hide StepOf, View, Distinct, Reopened;
      ghost var items, alone := iter.items, Alone();
      ViewParts(items);
      OwnedParts(items);
      label before:
      var item := iter.Next();
      r := Handle(item);
      if alone || r.None? {
        ViewSame@before(iter.items);
      }
    }

    /** The next joined entry, or the error that ends the stream. No other message is written; but where an
        entry comes again, what was written into it is what it then has, even for the group that is open. */
    method Next() returns (out: Item)
      requires Valid()
      modifies this, iter, Mine()
      ensures Valid() && Mine() <= old(Mine())
      ensures
        var c := CallOf(old(View(iter.items)), old(Open()), matches);
        && LineOf(out) == c.out && Open() == Reopened(c.open, start, out)
        && |iter.items| == |c.rest| && iter.items == old(iter.items)[|old(iter.items)| - |c.rest|..]
      ensures out.Entry? ==> out.e in old(Mine())
      ensures forall e: LogEntry :: old(allocated(e)) && !IsEntry(out, e) ==> e.message == old(e.message)
      ensures old(Alone()) ==>
        var c := CallOf(old(View(iter.items)), old(Open()), matches);
        && Alone() && View(iter.items) == c.rest && Open() == c.open && (out.Entry? ==> out.e !in Mine())
    {
      hide StepOf, View, Distinct, Reopened, LineOf, Owned;
      ghost var c := CallOf(View(iter.items), Open(), matches);
      ghost var was, k, alone := iter.items, 0, Alone();
      assert was[0..] == was;
      while true
        invariant Valid() && Mine() <= old(Mine())
        invariant alone ==> Alone()
        invariant k <= |was| && iter.items == was[k..]
        invariant CallOf(View(iter.items), Open(), matches) == c
        invariant forall e: LogEntry :: old(allocated(e)) ==> e.message == old(e.message)
        decreases |iter.items|
      {
        ViewParts(iter.items);
        var r := Round();
        k := if k < |was| then k + 1 else k;
        if r.Some? {
          NotReopened(c.open, start, r.value);
          return r.value;
        }
      }
    }
  }

  /** A group that starts with another entry is as it was. */
  lemma {:induction false} NotReopened(open: Option<Group>, start: LogEntry?, out: Item)
    ensures out.Entry? && start != out.e ==> Reopened(open, start, out) == open
    ensures out.Error? ==> Reopened(open, start, out) == open
  {
  }

  /** The entry of an item. */
  predicate IsEntry(i: Item, e: LogEntry) { i.Entry? && i.e == e }

  /** An open group whose first entry is the one that was just written starts with what was written. */
  ghost function Reopened(open: Option<Group>, start: LogEntry?, out: Item): Option<Group>
    reads if out.Entry? then {out.e} else {}
  {
    if open.Some? && out.Entry? && start == out.e then Some(open.value.(msg := Text(out.e.message))) else open
  }

  /** The view of items whose messages stay does not change. */
  twostate lemma {:induction false} ViewSame(items: seq<Item>)
    requires forall k :: 0 <= k < |items| && items[k].Entry? ==> old(items[k].e.message) == items[k].e.message
    ensures old(View(items)) == View(items)
  {
    if items != [] {
      ViewSame(items[1..]);
    }
  }

  lemma {:induction false} ViewParts(items: seq<Item>)
    ensures Head(View(items)) == LineOf(if items == [] then Error(AtEnd) else items[0])
    ensures Tail(View(items)) == View(if items == [] then [] else items[1..])
  {
  }

  lemma {:induction false} OwnedParts(items: seq<Item>)
    ensures items != [] ==> Owned(items) == (if items[0].Entry? then {items[0].e} else {}) + Owned(items[1..])
    ensures items != [] && Distinct(items) ==>
      Distinct(items[1..]) && (items[0].Entry? ==> items[0].e !in Owned(items[1..]))
  {
  }

  lemma {:induction false} ViewAppend(items: seq<Item>, i: Item)
    ensures View(items + [i]) == View(items) + [LineOf(i)]
    ensures Owned(items + [i]) == Owned(items) + (if i.Entry? then {i.e} else {})
  {
    if items == [] {
      assert [] + [i] == [i];
    } else {
      ViewAppend(items[1..], i);
      assert (items + [i])[1..] == items[1..] + [i];
    }
  }

  /** What an error that ends the reading is to the caller: the end of the stream is none. */
  function Reported(err: Err): Option<Err> {
    if err == AtEnd then None else Some(err)
  }

  /** All that a joined stream will still give, and the error that it will end with. */
  ghost function Left(j: JoinerState): seq<Line>
    reads j, j.iter, Owned(j.iter.items)
  {
    Outputs(View(j.iter.items), j.Open(), j.matches)
  }

  ghost function LeftErr(j: JoinerState): Err
    reads j, j.iter, Owned(j.iter.items)
  {
    EndOf(View(j.iter.items), j.Open(), j.matches)
  }

  /** One entry of a joined stream in which none comes twice; those that it gave before stay as they are. */
  method Pull(j: JoinerState, ghost before: seq<Item>) returns (out: Item)
    requires j.Valid() && j.Alone() && Owned(before) !! j.Mine()
    modifies j, j.iter, j.Mine()
    ensures j.Valid() && j.Alone() && j.Mine() <= old(j.Mine())
    ensures View(before) == old(View(before))
    ensures out.Error? ==> old(Left(j)) == [] && out.err == old(LeftErr(j))
    ensures out.Entry? ==>
      && out.e in old(j.Mine()) && out.e !in j.Mine()
      && old(Left(j)) == [LineOf(out)] + Left(j) && old(LeftErr(j)) == LeftErr(j)
      && (|j.iter.items| < |old(j.iter.items)| || (j.iter.items == [] && j.start == null != old(j.start)))
  {
    hide View, Owned, JoinerState.Valid, JoinerState.Alone, CallOf, Outputs, EndOf;
    OutputsStep(View(j.iter.items), j.Open(), j.matches);
    out := j.Next();
    ViewSame(before);
  }

  /** Reads a joined stream and gives its entries to a callback, until the stream ends in an error or the
      callback answers with one; answer(n) is what it answers to the n-th entry. */
  method Iterate(j: JoinerState, answer: nat -> Option<Err>) returns (outs: seq<Item>, err: Option<Err>)
    requires j.Valid() && j.Alone()
    modifies j, j.iter, j.Mine()
    ensures j.Valid() && j.Alone()
    ensures View(outs) <= Outputs(old(View(j.iter.items)), old(j.Open()), j.matches)
    ensures forall n :: 0 <= n < |outs| - 1 ==> answer(n).None?
    ensures
      if outs != [] && answer(|outs| - 1).Some? then err == Reported(answer(|outs| - 1).value)
      else
        && View(outs) == Outputs(old(View(j.iter.items)), old(j.Open()), j.matches)
        && err == Reported(EndOf(old(View(j.iter.items)), old(j.Open()), j.matches))
  {
    hide View, Owned, JoinerState.Valid, JoinerState.Alone, JoinerState.Mine, Left, LeftErr, LineOf;
    ghost var all, end := Left(j), LeftErr(j);
    LeftIs(j);
    outs := [];
    NothingSeen();
    while true
      invariant j.Valid() && j.Alone() && j.Mine() <= old(j.Mine())
      invariant Owned(outs) <= old(j.Mine()) && Owned(outs) !! j.Mine()
      invariant View(outs) + Left(j) == all && LeftErr(j) == end
      invariant forall n :: 0 <= n < |outs| ==> answer(n).None?
      decreases |j.iter.items|, j.start != null
    {
      ghost var got := View(outs);
      var out := Pull(j, outs);
      if out.Error? {
        return outs, Reported(out.err);
      }
      ViewAppend(outs, out);
      outs := outs + [out];
      Regroup(got, LineOf(out), Left(j));
      var stop := answer(|outs| - 1);
      if stop.Some? {
        return outs, Reported(stop.value);
      }
    }
  }

  lemma {:induction false} LeftIs(j: JoinerState)
    ensures Left(j) == Outputs(View(j.iter.items), j.Open(), j.matches)
    ensures LeftErr(j) == EndOf(View(j.iter.items), j.Open(), j.matches)
  {
  }

  lemma {:induction false} NothingSeen()
    ensures View([]) == [] && Owned([]) == {}
  {
  }

  lemma {:induction false} Regroup(a: seq<Line>, l: Line, b: seq<Line>)
    ensures a + [l] + b == a + ([l] + b)
  {
  }

  lemma {:induction false} OutputsStep(lines: seq<Line>, open: Option<Group>, matches: string -> bool)
    ensures
      var c := CallOf(lines, open, matches);
      && Outputs(lines, open, matches) == (if c.out.Fault? then [] else [c.out] + Outputs(c.rest, c.open, matches))
      && EndOf(lines, open, matches) == (if c.out.Fault? then c.out.err else EndOf(c.rest, c.open, matches))
  {
  }
}
