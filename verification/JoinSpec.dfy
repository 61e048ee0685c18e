/** Joining the lines of a log into messages, as functions over whole streams. */
module JoinSpec {
  import opened Options
  import opened Iterators
  import Cut

  /** What an iterator gives: an entry, known by its identity, with its index and its message if it has
      one; or an error, of which the end of the stream is one. */
  datatype Line = Line(entry: nat, index: int, msg: Option<string>) | Fault(err: Err)

  /** The entry that further messages are appended to. */
  datatype Group = Group(entry: nat, index: int, msg: string)

  function Text(msg: Option<string>): string {
    if msg.Some? then msg.value else ""
  }

  /** An entry starts a message if it has a message of its own that a start pattern matches. */
  predicate IsStart(l: Line, matches: string -> bool)
    requires l.Line?
  {
    l.msg.Some? && matches(l.msg.value)
  }

  function StartOf(l: Line): Group
    requires l.Line?
  {
    Group(l.entry, l.index, Text(l.msg))
  }

  function Appended(g: Group, l: Line): Group
    requires l.Line?
  {
    if l.msg.Some? then g.(msg := g.msg + "\n" + l.msg.value) else g
  }

  function Joined(g: Group): Line { Line(g.entry, g.index, Some(g.msg)) }

  /** What one line does: it may complete a message, or end the stream; and it leaves a group open or not.
      An error that comes while a group is open ends the group, and is lost. */
  datatype Step = Step(out: Option<Line>, open: Option<Group>)

  function StepOf(l: Line, open: Option<Group>, matches: string -> bool): (s: Step)
    ensures s.out.None? ==> l.Line? && s.open.Some?
  {
    if l.Fault? then Step(Some(if open.Some? then Joined(open.value) else l), None)
    else if open.None? then Step(None, Some(StartOf(l)))
    else if IsStart(l, matches) then Step(Some(Joined(open.value)), Some(StartOf(l)))
    else Step(None, Some(Appended(open.value, l)))
  }

  /** The next line of a stream; one that is used up ends for ever. */
  function Head(lines: seq<Line>): Line {
    if lines == [] then Fault(AtEnd) else lines[0]
  }

  function Tail(lines: seq<Line>): seq<Line> {
    if lines == [] then [] else lines[1..]
  }

  /** The result of one call, with the lines that are left and the group that is open after it. */
  datatype Call = Call(out: Line, rest: seq<Line>, open: Option<Group>)

  function CallOf(lines: seq<Line>, open: Option<Group>, matches: string -> bool): (c: Call)
    ensures |c.rest| <= |lines| && (lines != [] ==> |c.rest| < |lines|)
    ensures lines == [] ==> c.open.None? && (c.out.Fault? <==> open.None?)
    decreases |lines|
  {
    var s := StepOf(Head(lines), open, matches);
    if s.out.Some? then Call(s.out.value, Tail(lines), s.open) else CallOf(Tail(lines), s.open, matches)
  }

  /** All entries that calls return up to the first error. */
  function Outputs(lines: seq<Line>, open: Option<Group>, matches: string -> bool): (outs: seq<Line>)
    decreases |lines|, if open.Some? then 1 else 0
  {
    var c := CallOf(lines, open, matches);
    if c.out.Fault? then [] else [c.out] + Outputs(c.rest, c.open, matches)
  }

  /** The error at which they end. */
  function EndOf(lines: seq<Line>, open: Option<Group>, matches: string -> bool): (err: Err)
    decreases |lines|, if open.Some? then 1 else 0
  {
    var c := CallOf(lines, open, matches);
    if c.out.Fault? then c.out.err else EndOf(c.rest, c.open, matches)
  }

  // ----- Groups --------------------------------------------------------------------------------

  ghost predicate Clean(lines: seq<Line>) {
    forall k :: 0 <= k < |lines| ==> lines[k].Line?
  }

  function Flatten(groups: seq<seq<Line>>): seq<Line> {
    if groups == [] then [] else groups[0] + Flatten(groups[1..])
  }

  /** A group starts with any line and goes on with lines that do not start a message. */
  ghost predicate IsGroup(g: seq<Line>, matches: string -> bool)
    ensures IsGroup(g, matches) ==> g != [] && Clean(g)
  {
    && g != [] && Clean(g)
    && forall k :: 1 <= k < |g| ==> !IsStart(g[k], matches)
  }

  /** The lines, cut in front of every line but the first that starts a message. */
  ghost predicate AreGroups(groups: seq<seq<Line>>, matches: string -> bool) {
    && (forall k :: 0 <= k < |groups| ==> IsGroup(groups[k], matches))
    && (forall k :: 1 <= k < |groups| ==> IsStart(groups[k][0], matches))
  }

  /** The messages of a group, each on a line of its own. */
  function Message(g: seq<Line>): string
    requires g != [] && Clean(g)
  {
    if |g| == 1 then Text(g[0].msg)
    else
      var last := g[|g| - 1];
      Message(g[..|g| - 1]) + (if last.msg.Some? then "\n" + last.msg.value else "")
  }

  function GroupOf(g: seq<Line>): Group
    requires g != [] && Clean(g)
  {
    Group(g[0].entry, g[0].index, Message(g))
  }

  function Messages(groups: seq<seq<Line>>): (r: seq<Line>)
    requires forall k :: 0 <= k < |groups| ==> groups[k] != [] && Clean(groups[k])
    ensures |r| == |groups|
  {
    if groups == [] then [] else [Joined(GroupOf(groups[0]))] + Messages(groups[1..])
  }

  lemma {:induction false} GroupOfMore(g: seq<Line>, l: Line)
    requires g != [] && Clean(g) && l.Line?
    ensures Clean(g + [l]) && GroupOf(g + [l]) == Appended(GroupOf(g), l)
  {
  }

  lemma {:induction false} FirstOfGroup(l: Line)
    requires l.Line?
    ensures GroupOf([l]) == StartOf(l)
  {
  }

  lemma {:induction false} NoOutputs(matches: string -> bool)
    ensures Outputs([], None, matches) == []
  {
  }

  /** The first line opens a group. */
  lemma {:induction false} Opens(lines: seq<Line>, matches: string -> bool)
    requires lines != [] && lines[0].Line?
    ensures Outputs(lines, None, matches) == Outputs(lines[1..], Some(StartOf(lines[0])), matches)
  {
  }

  /** A line that does not start a message is appended to the open group. */
  lemma {:induction false} GoesOn(lines: seq<Line>, open: Group, matches: string -> bool)
    requires lines != [] && lines[0].Line? && !IsStart(lines[0], matches)
    ensures Outputs(lines, Some(open), matches) == Outputs(lines[1..], Some(Appended(open, lines[0])), matches)
  {
  }

  /** The group that is open takes in the rest of its lines; what follows is on its own. */
  lemma {:induction false} OpenGroup(front: seq<Line>, rest: seq<Line>, behind: seq<Line>, matches: string -> bool)
    requires IsGroup(front + rest, matches) && front != []
    requires behind != [] ==> behind[0].Fault? || IsStart(behind[0], matches)
    ensures Clean(front) && Clean(front + rest)
    ensures
      var after := if behind != [] && behind[0].Fault? then behind[1..] else behind;
      Outputs(rest + behind, Some(GroupOf(front)), matches)
      == [Joined(GroupOf(front + rest))] + Outputs(after, None, matches)
    decreases |rest|
  {
    hide Outputs, CallOf, IsStart, Message;
    assert forall k :: 0 <= k < |front| ==> front[k] == (front + rest)[k];
    if rest == [] {
      assert front + rest == front && rest + behind == behind;
      Closes(behind, GroupOf(front), matches);
    } else {
      var l := rest[0];
      assert (front + rest)[|front|] == l;
      assert front + [l] + rest[1..] == front + rest;
      GroupOfMore(front, l);
      OpenGroup(front + [l], rest[1..], behind, matches);
      GoesOn(rest + behind, GroupOf(front), matches);
      assert (rest + behind)[1..] == rest[1..] + behind;
    }
  }

  lemma {:induction false} Closes(behind: seq<Line>, open: Group, matches: string -> bool)
    requires behind != [] ==> behind[0].Fault? || IsStart(behind[0], matches)
    ensures
      var after := if behind != [] && behind[0].Fault? then behind[1..] else behind;
      Outputs(behind, Some(open), matches) == [Joined(open)] + Outputs(after, None, matches)
  {
  }

  /** Joining gives one entry for each group of lines: the entry and the index of its first line, with the
      messages of the group. */
  lemma {:induction false} JoinsGroups(groups: seq<seq<Line>>, matches: string -> bool)
    requires AreGroups(groups, matches)
    ensures Outputs(Flatten(groups), None, matches) == Messages(groups)
    decreases |groups|
  {
    hide Outputs, CallOf, IsStart, Message;
    NoOutputs(matches);
    if groups != [] {
      var g, rest := groups[0], groups[1..];
      assert IsGroup(g, matches);
      assert AreGroups(rest, matches) by {
        assert forall k :: 0 <= k < |rest| ==> rest[k] == groups[k + 1];
      }
      HeadOfFlatten(rest, matches);
      JoinsGroups(rest, matches);
      OneGroup(g, Flatten(rest), matches);
    }
  }

  lemma {:induction false} HeadOfFlatten(groups: seq<seq<Line>>, matches: string -> bool)
    requires AreGroups(groups, matches)
    ensures groups != [] ==> Flatten(groups) != [] && Flatten(groups)[0] == groups[0][0]
  {
  }

  /** Every stream of lines has such groups. */
  lemma {:induction false} HasGroups(lines: seq<Line>, matches: string -> bool) returns (groups: seq<seq<Line>>)
    requires Clean(lines)
    ensures AreGroups(groups, matches) && Flatten(groups) == lines
    decreases |lines|
  {
    if lines == [] {
      return [];
    }
    var n := 1;
    while n < |lines| && !IsStart(lines[n], matches)
      invariant 1 <= n <= |lines|
      invariant forall k :: 1 <= k < n ==> !IsStart(lines[k], matches)
    {
      n := n + 1;
    }
    var rest := HasGroups(lines[n..], matches);
    HeadOfFlatten(rest, matches);
    groups := [lines[..n]] + rest;
    assert lines[..n] + lines[n..] == lines;
  }

  /** The texts of a group: that of its first line, which may be missing, and those that the others have. */
  function TextsOf(g: seq<Line>): (r: seq<string>)
    requires g != [] && Clean(g)
    ensures r != []
  {
    if |g| == 1 then [Text(g[0].msg)]
    else
      var last := g[|g| - 1];
      TextsOf(g[..|g| - 1]) + (if last.msg.Some? then [last.msg.value] else [])
  }

  /** The message of a group is its texts with newlines between them. */
  lemma {:induction false} MessageIs(g: seq<Line>)
    requires g != [] && Clean(g)
    ensures Message(g) == Cut.Join(TextsOf(g), "\n")
  {
    hide Cut.Join;
    if |g| == 1 {
      Cut.JoinMore([], Text(g[0].msg), "\n");
      assert [] + [Text(g[0].msg)] == [Text(g[0].msg)];
    } else {
      var front, last := g[..|g| - 1], g[|g| - 1];
      MessageIs(front);
      if last.msg.Some? {
        Cut.JoinMore(TextsOf(front), last.msg.value, "\n");
        assert Message(front) + ("\n" + last.msg.value) == Message(front) + "\n" + last.msg.value;
      } else {
        assert TextsOf(front) + [] == TextsOf(front);
      }
    }
  }

  // ----- Where the joined messages begin -------------------------------------------------------

  /** A start pattern matches the message of the line. */
  predicate Matching(l: Line, matches: string -> bool) {
    l.Line? && l.msg.Some? && matches(l.msg.value)
  }

  /** Exactly the first line and every line behind it that a start pattern matches, in order. */
  ghost predicate AreStarts(starts: seq<nat>, lines: seq<Line>, matches: string -> bool) {
    && (forall j, k :: 0 <= j < k < |starts| ==> starts[j] < starts[k])
    && (forall k: nat :: k in starts <==> k < |lines| && (k == 0 || Matching(lines[k], matches)))
  }

  /** Where the message that begins at starts[j] ends. */
  function EndAt(starts: seq<nat>, j: nat, n: nat): nat {
    if j + 1 < |starts| then starts[j + 1] else n
  }

  /** Each output is made of the lines from one start up to the next. */
  ghost predicate AreBetween(outs: seq<Line>, starts: seq<nat>, lines: seq<Line>) {
    && |outs| == |starts|
    && forall j :: 0 <= j < |starts| ==> IsBetween(outs[j], starts[j], EndAt(starts, j, |lines|), lines)
  }

  ghost predicate IsBetween(out: Line, from: nat, to: nat, lines: seq<Line>) {
    from < to <= |lines| && Clean(lines[from..to]) && out == Joined(GroupOf(lines[from..to]))
  }

  function Shifted(starts: seq<nat>, n: nat): (r: seq<nat>)
    ensures |r| == |starts| && forall j :: 0 <= j < |starts| ==> r[j] == starts[j] + n
  {
    if starts == [] then [] else [starts[0] + n] + Shifted(starts[1..], n)
  }

  lemma {:induction false} ShiftedHas(starts: seq<nat>, n: nat, k: nat)
    ensures k in Shifted(starts, n) <==> n <= k && k - n in starts
  {
    hide Shifted;
    var r := Shifted(starts, n);
    if n <= k && k - n in starts {
      var j :| 0 <= j < |starts| && starts[j] == k - n;
      assert r[j] == k;
    }
  }

  lemma {:induction false} StartsBehind(starts: seq<nat>, n: nat, lines: seq<Line>, matches: string -> bool)
    requires 0 < n <= |lines| && AreStarts(starts, lines[n..], matches)
    requires forall k :: 1 <= k < n ==> !Matching(lines[k], matches)
    requires n < |lines| ==> Matching(lines[n], matches)
    ensures AreStarts([0] + Shifted(starts, n), lines, matches)
  {
    hide Matching, Shifted;
    var all, rest := [0] + Shifted(starts, n), lines[n..];
    forall k: nat
      ensures k in all <==> k < |lines| && (k == 0 || Matching(lines[k], matches))
    {
      ShiftedHas(starts, n, k);
      assert k in all <==> k == 0 || k in Shifted(starts, n);
      if n <= k < |lines| {
        assert rest[k - n] == lines[k];
      }
    }
  }

  lemma {:induction false} BetweenBehind(outs: seq<Line>, starts: seq<nat>, n: nat, lines: seq<Line>)
    requires 0 < n <= |lines| && Clean(lines) && AreBetween(outs, starts, lines[n..])
    requires if starts == [] then n == |lines| else starts[0] == 0
    ensures Clean(lines[..n])
    ensures AreBetween([Joined(GroupOf(lines[..n]))] + outs, [0] + Shifted(starts, n), lines)
  {
    hide Shifted, IsBetween;
    var first := Joined(GroupOf(lines[..n]));
    var all := [0] + Shifted(starts, n);
    FirstBetween(lines, n);
    forall j | 0 < j < |all|
      ensures IsBetween(([first] + outs)[j], all[j], EndAt(all, j, |lines|), lines)
    {
      var from, to := starts[j - 1], EndAt(starts, j - 1, |lines| - n);
      assert IsBetween(outs[j - 1], from, to, lines[n..]);
      BetweenShift(outs[j - 1], from, to, lines, n);
    }
    assert EndAt(all, 0, |lines|) == n;
  }

  lemma {:induction false} FirstBetween(lines: seq<Line>, n: nat)
    requires 0 < n <= |lines| && Clean(lines)
    ensures Clean(lines[..n]) && IsBetween(Joined(GroupOf(lines[..n])), 0, n, lines)
  {
    assert lines[0..n] == lines[..n];
  }

  lemma {:induction false} BetweenShift(out: Line, from: nat, to: nat, lines: seq<Line>, n: nat)
    requires n <= |lines| && IsBetween(out, from, to, lines[n..])
    ensures IsBetween(out, from + n, to + n, lines)
  {
    assert lines[n..][from..to] == lines[n + from..n + to];
  }

  /** The joined messages begin at the first line and at every line behind it that a start pattern matches,
      and nowhere else; each has the entry and the index of the line at which it begins, and the messages of
      the lines up to the next. */
  lemma {:induction false} MessagesBegin(lines: seq<Line>, matches: string -> bool) returns (starts: seq<nat>)
    requires Clean(lines)
    ensures AreStarts(starts, lines, matches) && AreBetween(Outputs(lines, None, matches), starts, lines)
    decreases |lines|
  {
    hide Outputs, AreBetween, GroupOf, Matching, IsStart, AreStarts;
    if lines == [] {
      NoOutputs(matches);
      NothingBegins(matches);
      return [];
    }
    var n := FirstGroup(lines, matches);
    var rest := MessagesBegin(lines[n..], matches);
    StartsAtFirst(rest, lines[n..], matches);
    OneGroup(lines[..n], lines[n..], matches);
    assert lines[..n] + lines[n..] == lines;
    StartsBehind(rest, n, lines, matches);
    BetweenBehind(Outputs(lines[n..], None, matches), rest, n, lines);
    starts := [0] + Shifted(rest, n);
  }

  lemma {:induction false} NothingBegins(matches: string -> bool)
    ensures AreStarts([], [], matches) && AreBetween([], [], [])
  {
  }

  lemma {:induction false} StartsAtFirst(starts: seq<nat>, lines: seq<Line>, matches: string -> bool)
    requires AreStarts(starts, lines, matches)
    ensures if lines == [] then starts == [] else starts != [] && starts[0] == 0
  {
    if starts != [] {
      assert starts[0] in starts;
    }
    if lines != [] {
      assert 0 in starts;
      var j :| 0 <= j < |starts| && starts[j] == 0;
    }
  }

  /** How many lines the first message takes. */
  lemma {:induction false} FirstGroup(lines: seq<Line>, matches: string -> bool) returns (n: nat)
    requires lines != [] && Clean(lines)
    ensures 0 < n <= |lines| && IsGroup(lines[..n], matches)
    ensures forall k :: 1 <= k < n ==> !Matching(lines[k], matches)
    ensures n < |lines| ==> Matching(lines[n], matches) && IsStart(lines[n..][0], matches)
  {
    n := 1;
    while n < |lines| && !Matching(lines[n], matches)
      invariant 1 <= n <= |lines|
      invariant forall k :: 1 <= k < n ==> !Matching(lines[k], matches)
    {
      n := n + 1;
    }
  }

  /** Lines of which each has a message, and each behind the first is matched, stay as they are. */
  lemma {:induction false} MatchingLinesStay(lines: seq<Line>, matches: string -> bool)
    requires forall k :: 0 <= k < |lines| ==> lines[k].Line? && lines[k].msg.Some?
    ensures Outputs(lines, None, matches) == lines
      <==> forall k :: 1 <= k < |lines| ==> matches(lines[k].msg.value)
  {
    UnchangedIff(lines, matches);
  }

  // ----- Errors ----------------------------------------------------------------------------------

  /** An error is reported exactly if no group is open; one that meets an open group ends the group and is
      lost, and the lines behind it are joined as a stream of their own. */
  lemma {:induction false} ErrorsAreLost(lines: seq<Line>, err: Err, behind: seq<Line>, matches: string -> bool)
    requires Clean(lines)
    ensures
      var all := lines + [Fault(err)] + behind;
      if lines == [] then CallOf(all, None, matches).out == Fault(err)
      else Outputs(all, None, matches) == Outputs(lines, None, matches) + Outputs(behind, None, matches)
  {
    if lines != [] {
      var groups := HasGroups(lines, matches);
      LostBehind(groups, err, behind, matches);
      JoinsGroups(groups, matches);
    }
  }

  lemma {:induction false} LostBehind(groups: seq<seq<Line>>, err: Err, behind: seq<Line>, matches: string -> bool)
    requires AreGroups(groups, matches) && groups != []
    ensures Outputs(Flatten(groups) + [Fault(err)] + behind, None, matches)
         == Messages(groups) + Outputs(behind, None, matches)
    decreases |groups|
  {
    hide Outputs, CallOf, IsStart, Message, Flatten, IsGroup;
    var g, rest := groups[0], groups[1..];
    assert IsGroup(g, matches);
    assert AreGroups(rest, matches) by {
      assert forall k :: 0 <= k < |rest| ==> rest[k] == groups[k + 1];
    }
    FlattenParts(groups, matches);
    var more := Flatten(rest) + [Fault(err)] + behind;
    assert Flatten(groups) + [Fault(err)] + behind == g + more;
    if rest == [] {
      assert more[0] == Fault(err) && more[1..] == behind;
      OneGroup(g, more, matches);
    } else {
      HeadOfFlatten(rest, matches);
      assert more[0] == Flatten(rest)[0];
      OneGroup(g, more, matches);
      LostBehind(rest, err, behind, matches);
      assert [Joined(GroupOf(g))] + (Messages(rest) + Outputs(behind, None, matches))
        == Messages(groups) + Outputs(behind, None, matches);
    }
  }

  /** A whole group, and what is behind it. */
  lemma {:induction false} OneGroup(g: seq<Line>, behind: seq<Line>, matches: string -> bool)
    requires IsGroup(g, matches)
    requires behind != [] ==> behind[0].Fault? || IsStart(behind[0], matches)
    ensures
      var after := if behind != [] && behind[0].Fault? then behind[1..] else behind;
      Outputs(g + behind, None, matches) == [Joined(GroupOf(g))] + Outputs(after, None, matches)
  {
    hide Outputs, CallOf, IsStart, Message;
    Opens(g + behind, matches);
    assert (g + behind)[1..] == g[1..] + behind;
    assert [g[0]] + g[1..] == g;
    FirstOfGroup(g[0]);
    OpenGroup([g[0]], g[1..], behind, matches);
  }

  lemma {:induction false} FlattenParts(groups: seq<seq<Line>>, matches: string -> bool)
    requires groups != []
    ensures Flatten(groups) == groups[0] + Flatten(groups[1..])
    ensures Flatten([]) == []
  {
  }

  // ----- Joining twice -------------------------------------------------------------------------

  ghost predicate AllHaveMessages(lines: seq<Line>) {
    forall k :: 0 <= k < |lines| ==> lines[k].Line? && lines[k].msg.Some?
  }

  function Singles(lines: seq<Line>): (groups: seq<seq<Line>>)
    ensures |groups| == |lines| && forall k :: 0 <= k < |lines| ==> groups[k] == [lines[k]]
  {
    if lines == [] then [] else [[lines[0]]] + Singles(lines[1..])
  }

  lemma {:induction false} FlattenSingles(lines: seq<Line>)
    requires AllHaveMessages(lines)
    ensures Flatten(Singles(lines)) == lines
    ensures forall k :: 0 <= k < |lines| ==> Singles(lines)[k] != [] && Clean(Singles(lines)[k])
    ensures Messages(Singles(lines)) == lines
  {
    if lines != [] {
      FlattenSingles(lines[1..]);
      assert Singles(lines)[1..] == Singles(lines[1..]);
      assert Joined(GroupOf([lines[0]])) == lines[0];
    }
  }

  lemma {:induction false} FlattenLength(groups: seq<seq<Line>>, matches: string -> bool)
    requires AreGroups(groups, matches)
    ensures |groups| <= |Flatten(groups)|
    ensures |groups| == |Flatten(groups)| ==> forall k :: 0 <= k < |groups| ==> groups[k] == [Flatten(groups)[k]]
  {
    if groups != [] {
      var g, rest := groups[0], groups[1..];
      assert IsGroup(g, matches);
      assert AreGroups(rest, matches) by {
        assert forall k :: 0 <= k < |rest| ==> rest[k] == groups[k + 1];
      }
      FlattenLength(rest, matches);
      if |groups| == |Flatten(groups)| {
        assert g == [Flatten(groups)[0]];
        forall k | 0 < k < |groups|
          ensures groups[k] == [Flatten(groups)[k]]
        {
          assert rest[k - 1] == [Flatten(rest)[k - 1]];
        }
      }
    }
  }

  ghost predicate StartsBehindFirst(lines: seq<Line>, matches: string -> bool)
    requires Clean(lines)
  {
    forall k :: 1 <= k < |lines| ==> IsStart(lines[k], matches)
  }

  /** Joining changes nothing exactly if every line but the first starts a message. */
  lemma {:induction false} UnchangedIff(lines: seq<Line>, matches: string -> bool)
    requires AllHaveMessages(lines)
    ensures Clean(lines)
    ensures Outputs(lines, None, matches) == lines <==> StartsBehindFirst(lines, matches)
  {
    FlattenSingles(lines);
    if StartsBehindFirst(lines, matches) {
      assert AreGroups(Singles(lines), matches);
      JoinsGroups(Singles(lines), matches);
    }
    if Outputs(lines, None, matches) == lines {
      var groups := HasGroups(lines, matches);
      JoinsGroups(groups, matches);
      FlattenLength(groups, matches);
      forall k | 1 <= k < |lines|
        ensures IsStart(lines[k], matches)
      {
        assert IsStart(groups[k][0], matches);
      }
    }
  }

  lemma {:induction false} MessagesAreMessages(groups: seq<seq<Line>>, matches: string -> bool)
    requires AreGroups(groups, matches)
    ensures AllHaveMessages(Messages(groups))
    ensures forall k :: 0 <= k < |groups| ==> Messages(groups)[k] == Joined(GroupOf(groups[k]))
  {
    if groups != [] {
      var rest := groups[1..];
      assert AreGroups(rest, matches) by {
        assert forall k :: 0 <= k < |rest| ==> rest[k] == groups[k + 1];
      }
      MessagesAreMessages(rest, matches);
    }
  }

  /** Joining twice is joining once exactly if every joined message but the first one is still a start. */
  lemma {:induction false} JoinTwiceIff(lines: seq<Line>, matches: string -> bool)
    requires Clean(lines)
    ensures
      var once := Outputs(lines, None, matches);
      Clean(once) && (Outputs(once, None, matches) == once <==> StartsBehindFirst(once, matches))
  {
    var groups := HasGroups(lines, matches);
    JoinsGroups(groups, matches);
    MessagesAreMessages(groups, matches);
    UnchangedIff(Messages(groups), matches);
  }

  lemma {:induction false} MessageMatches(g: seq<Line>, matches: string -> bool)
    requires IsGroup(g, matches) && IsStart(g[0], matches)
    requires forall m, x :: matches(m) ==> matches(m + "\n" + x)
    ensures matches(Message(g))
    decreases |g|
  {
    if 1 < |g| {
      var front, last := g[..|g| - 1], g[|g| - 1];
      MessageMatches(front, matches);
      if last.msg.Some? {
        assert Message(front) + ("\n" + last.msg.value) == Message(front) + "\n" + last.msg.value;
      } else {
        assert Message(front) + "" == Message(front);
      }
    }
  }

  /** It is if appending a line to a message that matches gives one that matches. */
  lemma {:induction false} JoinTwice(lines: seq<Line>, matches: string -> bool)
    requires Clean(lines)
    requires forall m, x :: matches(m) ==> matches(m + "\n" + x)
    ensures
      var once := Outputs(lines, None, matches);
      Outputs(once, None, matches) == once
  {
    var groups := HasGroups(lines, matches);
    JoinsGroups(groups, matches);
    MessagesAreMessages(groups, matches);
    JoinTwiceIff(lines, matches);
    var once := Messages(groups);
    forall k | 1 <= k < |once|
      ensures IsStart(once[k], matches)
    {
      assert IsGroup(groups[k], matches) && IsStart(groups[k][0], matches);
      MessageMatches(groups[k], matches);
    }
  }
}
