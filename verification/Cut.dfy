/** Cutting the message of an entry into fields, and collecting the fields into the entry. */
module Cut {

  // ----- Splitting and joining -----------------------------------------------------------------

  /** Where d stands in s for the first time; |s| if it does not. */
  function IndexOf(s: string, d: string): (i: nat)
    ensures i <= |s|
    ensures i < |s| && d != "" ==> d <= s[i..]
  {
    if s == "" || d <= s then 0 else 1 + IndexOf(s[1..], d)
  }

  /** Every rune on its own. */
  function Explode(s: string): (fields: seq<string>)
    ensures |fields| == |s|
  {
    if s == "" then [] else [[s[0]]] + Explode(s[1..])
  }

  /** The parts of s between the delimiters; an empty delimiter stands between any two runes. */
  function Split(s: string, d: string): (fields: seq<string>)
    decreases |s|
  {
    if d == "" then Explode(s)
    else
      var i := IndexOf(s, d);
      if i == |s| then [s] else [s[..i]] + Split(s[i + |d|..], d)
  }

  function Join(fields: seq<string>, d: string): string {
    if fields == [] then ""
    else if |fields| == 1 then fields[0]
    else fields[0] + d + Join(fields[1..], d)
  }

  lemma {:induction false} JoinExplode(s: string)
    ensures Join(Explode(s), "") == s
  {
    if s != "" {
      JoinExplode(s[1..]);
      assert [s[0]] + "" + s[1..] == s;
    }
  }

  lemma {:induction false} SplitIsNotEmpty(s: string, d: string)
    requires d != ""
    ensures Split(s, d) != []
  {
  }

  /** Joining what was split gives the string back, whatever the delimiter. */
  lemma {:induction false} JoinSplit(s: string, d: string)
    ensures Join(Split(s, d), d) == s
    decreases |s|
  {
    hide IndexOf, Explode;
    if d == "" {
      JoinExplode(s);
    } else {
      var i := IndexOf(s, d);
      if i < |s| {
        var rest := s[i + |d|..];
        JoinSplit(rest, d);
        SplitIsNotEmpty(rest, d);
        Around(s, d, i);
        assert Split(s, d)[1..] == Split(rest, d);
      }
    }
  }

  lemma {:induction false} Around(s: string, d: string, i: nat)
    requires i <= |s| && d <= s[i..]
    ensures s == s[..i] + d + s[i + |d|..]
  {
  }

  /** There is no earlier place at which d stands. */
  lemma {:induction false} IndexOfIsFirst(s: string, d: string)
    requires d != ""
    ensures forall j :: 0 <= j < IndexOf(s, d) ==> !(d <= s[j..])
  {
    if s != "" && !(d <= s) {
      IndexOfIsFirst(s[1..], d);
      forall j | 0 <= j < IndexOf(s, d)
        ensures !(d <= s[j..])
      {
        if 0 < j {
          assert s[j..] == s[1..][j - 1..];
        }
      }
    }
  }

  ghost predicate Contains(s: string, d: string) { exists j :: 0 <= j <= |s| && d <= s[j..] }

  /** No part has the delimiter in it, and the first one ends where the delimiter stands for the first time. */
  lemma {:induction false} PartsAreFree(s: string, d: string)
    requires d != ""
    ensures forall f :: f in Split(s, d) ==> !Contains(f, d)
    ensures Split(s, d) != [] && |Split(s, d)[0]| == IndexOf(s, d)
    ensures forall j :: 0 <= j < |Split(s, d)[0]| ==> !(d <= s[j..])
    decreases |s|
  {
    hide IndexOf, Contains;
    var i := IndexOf(s, d);
    IndexOfIsFirst(s, d);
    FrontIsFree(s, d, i);
    if i < |s| {
      PartsAreFree(s[i + |d|..], d);
    } else {
      assert s[..i] == s;
    }
  }

  lemma {:induction false} FrontIsFree(s: string, d: string, i: nat)
    requires d != "" && i <= |s| && forall j :: 0 <= j < i ==> !(d <= s[j..])
    ensures !Contains(s[..i], d)
  {
    forall j | 0 <= j <= i
      ensures !(d <= s[..i][j..])
    {
      assert s[..i][j..] == s[j..][..i - j];
    }
  }

  lemma {:induction false} IndexOfRune(s: string, c: char, behind: string)
    requires c !in s
    ensures IndexOf(s + [c] + behind, [c]) == |s| && IndexOf(s, [c]) == |s|
  {
    if s == "" {
      assert s + [c] + behind == [c] + behind;
      assert [c] <= [c] + behind;
    } else {
      IndexOfRune(s[1..], c, behind);
      var t := s + [c] + behind;
      assert t[1..] == s[1..] + [c] + behind;
      assert s[0] in s && t[0] == s[0];
      NotAhead(t, c);
      NotAhead(s, c);
    }
  }

  lemma {:induction false} NotAhead(s: string, c: char)
    requires s != "" && s[0] != c
    ensures IndexOf(s, [c]) == 1 + IndexOf(s[1..], [c])
  {
  }

  /** Splitting at a rune takes apart what was joined with it. */
  lemma {:induction false} SplitJoin(fields: seq<string>, c: char)
    requires fields != [] && forall f :: f in fields ==> c !in f
    ensures Split(Join(fields, [c]), [c]) == fields
    decreases |fields|
  {
    hide IndexOf, Split, Join;
    var f, rest := fields[0], fields[1..];
    JoinParts(fields, [c]);
    if |fields| == 1 {
      IndexOfRune(f, c, "");
      SplitWhole(f, c);
    } else {
      SplitJoin(rest, c);
      IndexOfRune(f, c, Join(rest, [c]));
      SplitAt(f, Join(rest, [c]), c);
    }
  }

  lemma {:induction false} JoinParts(fields: seq<string>, d: string)
    requires fields != []
    ensures Join(fields, d) == if |fields| == 1 then fields[0] else fields[0] + d + Join(fields[1..], d)
  {
  }

  lemma {:induction false} SplitWhole(f: string, c: char)
    requires IndexOf(f, [c]) == |f|
    ensures Split(f, [c]) == [f]
  {
  }

  lemma {:induction false} SplitAt(f: string, rest: string, c: char)
    requires IndexOf(f + [c] + rest, [c]) == |f|
    ensures Split(f + [c] + rest, [c]) == [f] + Split(rest, [c])
  {
    hide IndexOf;
    var s := f + [c] + rest;
    assert s[..|f|] == f && s[|f| + 1..] == rest;
  }

  // ----- Cutting an entry ----------------------------------------------------------------------

  /** Which field goes where: from numbers, of which negative ones count from the end, to names. */
  type Spec = map<int, string>

  type Fields = map<string, string>

  function NonBlank(fields: seq<string>): (r: seq<string>)
    ensures forall f :: f in r <==> f in fields && f != ""
  {
    if fields == [] then []
    else
      assert fields == fields[..|fields| - 1] + [fields[|fields| - 1]];
      var front := NonBlank(fields[..|fields| - 1]);
      if fields[|fields| - 1] == "" then front else front + [fields[|fields| - 1]]
  }

  predicate IsMapped(spec: Spec, i: int, n: int) { i in spec || i - n in spec }

  /** The fields that go nowhere, in their order. */
  function Unmapped(spec: Spec, fields: seq<string>, upTo: nat): seq<string>
    requires upTo <= |fields|
  {
    if upTo == 0 then []
    else
      var front := Unmapped(spec, fields, upTo - 1);
      if IsMapped(spec, upTo - 1, |fields|) then front else front + [fields[upTo - 1]]
  }

  /** The entry after the first fields have been written to where they go. */
  function Written(e: Fields, spec: Spec, fields: seq<string>, upTo: nat): Fields
    requires upTo <= |fields|
  {
    if upTo == 0 then e
    else
      var i, f := upTo - 1, fields[upTo - 1];
      var e1 := Written(e, spec, fields, i);
      var e2 := if i in spec then e1[spec[i] := f] else e1;
      if i - |fields| in spec then e2[spec[i - |fields|] := f] else e2
  }

  const MESSAGE := "@message"

  function FieldsOf(s: string, delimiter: string): seq<string> {
    NonBlank(Split(s, delimiter))
  }

  /** What is left of an entry and its message. An entry without a message stays as it is. */
  function CutOf(e: Fields, delimiter: string, spec: Spec): Fields {
    if MESSAGE !in e then e
    else
      var fields := FieldsOf(e[MESSAGE], delimiter);
      Written(e, spec, fields, |fields|)[MESSAGE := Join(Unmapped(spec, fields, |fields|), " ")]
  }

  class LogEntry {
    var fields: Fields

    constructor (fields: Fields)
      ensures this.fields == fields
    {
      this.fields := fields;
    }

    /** Writes the fields of the message to where the specification says, and the others to the result. */
    method Collect(spec: Spec, fields: seq<string>) returns (remaining: string)
      modifies this
      ensures this.fields == Written(old(this.fields), spec, fields, |fields|)
      ensures remaining == Join(Unmapped(spec, fields, |fields|), " ")
    {
      hide Join;
      var firstWrite := true;
      ghost var left: seq<string> := [];
      JoinNothing();
      remaining := "";
      for i := 0 to |fields|
        invariant this.fields == Written(old(this.fields), spec, fields, i)
        invariant left == Unmapped(spec, fields, i)
        invariant remaining == Join(left, " ") && firstWrite == (left == [])
      {
        var f := fields[i];
        var inverse := i - |fields|;
        if i in spec || inverse in spec {
          if i in spec {
            this.fields := this.fields[spec[i] := f];
          }
          if inverse in spec {
            this.fields := this.fields[spec[inverse] := f];
          }
        } else {
          JoinMore(left, f, " ");
          left := left + [f];
          if !firstWrite {
            remaining := remaining + " ";
          }
          firstWrite := false;
          remaining := remaining + f;
        }
      }
    }

    method Cut(delimiter: string, spec: Spec)
      modifies this
      ensures this.fields == CutOf(old(this.fields), delimiter, spec)
    {
      hide Join, Split, Written, Unmapped;
      if MESSAGE in this.fields {
        var parts := Split(this.fields[MESSAGE], delimiter);
        var nonBlank := DropBlank(parts);
        var remaining := Collect(spec, nonBlank);
        this.fields := this.fields[MESSAGE := remaining];
      }
    }
  }

  method DropBlank(fields: seq<string>) returns (nonBlank: seq<string>)
    ensures nonBlank == NonBlank(fields)
  {
    nonBlank := [];
    for i := 0 to |fields|
      invariant nonBlank == NonBlank(fields[..i])
    {
      assert fields[..i + 1][..i] == fields[..i];
      if |fields[i]| != 0 {
        nonBlank := nonBlank + [fields[i]];
      }
    }
    assert fields[..|fields|] == fields;
  }

  lemma {:induction false} JoinNothing()
    ensures Join([], " ") == ""
  {
  }

  lemma {:induction false} JoinMore(fields: seq<string>, f: string, d: string)
    ensures Join(fields + [f], d) == if fields == [] then f else Join(fields, d) + d + f
  {
    if fields == [] {
      assert [] + [f] == [f];
    } else {
      JoinMore(fields[1..], f, d);
      assert (fields + [f])[1..] == fields[1..] + [f];
      if 1 < |fields| {
        assert fields[0] + d + (Join(fields[1..], d) + d + f) == fields[0] + d + Join(fields[1..], d) + d + f;
      }
    }
  }

  // ----- Every field goes somewhere ------------------------------------------------------------

  /** The result of a cut keeps exactly the fields that are not mapped, in their order. */
  lemma {:induction false} KeepsTheRest(spec: Spec, fields: seq<string>, upTo: nat) returns (kept: seq<nat>)
    requires upTo <= |fields|
    ensures |kept| == |Unmapped(spec, fields, upTo)|
    ensures forall j, k :: 0 <= j < k < |kept| ==> kept[j] < kept[k]
    ensures forall i: nat :: i in kept <==> i < upTo && !IsMapped(spec, i, |fields|)
    ensures forall j :: 0 <= j < |kept| ==> kept[j] < |fields| && Unmapped(spec, fields, upTo)[j] == fields[kept[j]]
  {
    if upTo == 0 {
      return [];
    }
    kept := KeepsTheRest(spec, fields, upTo - 1);
    if !IsMapped(spec, upTo - 1, |fields|) {
      assert forall j :: 0 <= j < |kept| ==> kept[j] in kept;
      kept := kept + [upTo - 1];
    }
  }

  // ----- Field settings, written in any order --------------------------------------------------

  /** The specification after the settings have been written in this order: later ones win. */
  function SpecOf(order: seq<string>, sets: map<string, int>): (spec: Spec)
    requires forall f :: f in order ==> f in sets
  {
    if order == [] then map[]
    else
      var last := order[|order| - 1];
      SpecOf(order[..|order| - 1], sets)[sets[last] := last]
  }

  /** Every setting once, in some order. */
  ghost predicate IsOrder(order: seq<string>, sets: map<string, int>) {
    && (forall f :: f in order <==> f in sets)
    && forall j, k :: 0 <= j < k < |order| ==> order[j] != order[k]
  }

  /** Writes the settings into a new specification, in the order in which the map gives them. */
  method BuildSpec(sets: map<string, int>) returns (spec: Spec)
    ensures exists order :: IsOrder(order, sets) && spec == SpecOf(order, sets)
  {
    ghost var order: seq<string> := [];
    spec := map[];
    var todo := sets.Keys;
    while todo != {}
      invariant todo <= sets.Keys
      invariant forall f :: f in order <==> f in sets && f !in todo
      invariant forall j, k :: 0 <= j < k < |order| ==> order[j] != order[k]
      invariant spec == SpecOf(order, sets)
      decreases |todo|
    {
      var f :| f in todo;
      assert (order + [f])[..|order|] == order;
      spec := spec[sets[f] := f];
      order := order + [f];
      todo := todo - {f};
    }
    assert IsOrder(order, sets);
  }

  ghost predicate Injective(sets: map<string, int>) {
    forall f, g :: f in sets && g in sets && sets[f] == sets[g] ==> f == g
  }

  lemma {:induction false} SpecIsInverse(order: seq<string>, sets: map<string, int>)
    requires forall f :: f in order ==> f in sets
    ensures forall k :: k in SpecOf(order, sets) ==>
      SpecOf(order, sets)[k] in order && sets[SpecOf(order, sets)[k]] == k
    ensures forall f :: f in order ==> sets[f] in SpecOf(order, sets)
  {
    if order != [] {
      SpecIsInverse(order[..|order| - 1], sets);
      assert order == order[..|order| - 1] + [order[|order| - 1]];
    }
  }

  lemma {:induction false} SpecsAgree(order: seq<string>, other: seq<string>, sets: map<string, int>)
    requires IsOrder(order, sets) && IsOrder(other, sets) && Injective(sets)
    ensures SpecOf(order, sets) == SpecOf(other, sets)
  {
    hide SpecOf;
    SpecIsInverse(order, sets);
    SpecIsInverse(other, sets);
    var s, t := SpecOf(order, sets), SpecOf(other, sets);
    forall k
      ensures k in s <==> k in t
      ensures k in s ==> s[k] == t[k]
    {
      if k in s {
        assert sets[s[k]] == k;
      }
      if k in t {
        assert sets[t[k]] == k;
      }
    }
  }

  /** An order that writes the given setting last. */
  lemma {:induction false} LastInOrder(keys: set<string>, f: string) returns (order: seq<string>)
    requires f in keys
    ensures (forall g :: g in order <==> g in keys) && order != [] && order[|order| - 1] == f
    ensures forall j, k :: 0 <= j < k < |order| ==> order[j] != order[k]
  {
    var rest := keys - {f};
    order := [f];
    while rest != {}
      invariant rest <= keys
      invariant forall g :: g in order <==> g in keys && g !in rest
      invariant order != [] && order[|order| - 1] == f
      invariant forall j, k :: 0 <= j < k < |order| ==> order[j] != order[k]
      decreases |rest|
    {
      var g :| g in rest;
      order := [g] + order;
      rest := rest - {g};
    }
  }

  /** The order in which a map gives the settings does not matter exactly if no two of them have the
      same number. */
  lemma {:induction false} OrderMattersIff(sets: map<string, int>)
    ensures
      (forall order, other :: IsOrder(order, sets) && IsOrder(other, sets) ==>
         SpecOf(order, sets) == SpecOf(other, sets))
      <==> Injective(sets)
  {
    if Injective(sets) {
      forall order, other | IsOrder(order, sets) && IsOrder(other, sets)
        ensures SpecOf(order, sets) == SpecOf(other, sets)
      {
        SpecsAgree(order, other, sets);
      }
    } else {
      var f, g :| f in sets && g in sets && sets[f] == sets[g] && f != g;
      var order := LastInOrder(sets.Keys, f);
      var other := LastInOrder(sets.Keys, g);
      assert SpecOf(order, sets)[sets[f]] == f && SpecOf(other, sets)[sets[f]] == g;
      assert IsOrder(order, sets) && IsOrder(other, sets);
    }
  }

  // ----- Where the fields go -------------------------------------------------------------------

  /** The place of the field that a number stands for, among n. */
  function Place(k: int, n: nat): int { if k < 0 then k + n else k }

  /** The entry goes by the settings: nothing but the place that its number stands for is written to it. */
  lemma {:induction false} WrittenAt(e: Fields, order: seq<string>, sets: map<string, int>, fields: seq<string>,
                                     upTo: nat, t: string)
    requires IsOrder(order, sets) && Injective(sets) && upTo <= |fields|
    ensures
      var out := Written(e, SpecOf(order, sets), fields, upTo);
      if t in sets && 0 <= Place(sets[t], |fields|) < upTo then
        t in out && out[t] == fields[Place(sets[t], |fields|)]
      else
        (t in out <==> t in e) && (t in e ==> out[t] == e[t])
  {
    hide SpecOf;
    SpecIsInverse(order, sets);
    if 0 < upTo {
      WrittenAt(e, order, sets, fields, upTo - 1, t);
      var spec, i, n := SpecOf(order, sets), upTo - 1, |fields|;
      assert i in spec ==> sets[spec[i]] == i;
      assert i - n in spec ==> sets[spec[i - n]] == i - n;
      if t in sets && Place(sets[t], n) == i {
        assert sets[t] in spec && sets[spec[sets[t]]] == sets[t];
      }
    }
  }

  /** With different numbers, cut writes each field where its setting says - the field at that place from
      the start, or from the end if the number is negative - and leaves all else but the message alone. */
  lemma {:induction false} CutWrites(e: Fields, delimiter: string, order: seq<string>, sets: map<string, int>,
                                     t: string)
    requires IsOrder(order, sets) && Injective(sets) && MESSAGE in e && t != MESSAGE
    ensures
      var fields := FieldsOf(e[MESSAGE], delimiter);
      var out := CutOf(e, delimiter, SpecOf(order, sets));
      if t in sets && -|fields| <= sets[t] < |fields| then
        t in out && out[t] == fields[Place(sets[t], |fields|)]
      else
        (t in out <==> t in e) && (t in e ==> out[t] == e[t])
  {
    hide SpecOf, Written, FieldsOf;
    var fields := FieldsOf(e[MESSAGE], delimiter);
    WrittenAt(e, order, sets, fields, |fields|, t);
  }

  // ----- Cutting at a delimiter ----------------------------------------------------------------

  /** Exactly the parts that are not empty are kept, each as often as it is there, in their order. */
  lemma {:induction false} KeepsNonBlank(fields: seq<string>) returns (kept: seq<nat>)
    ensures |kept| == |NonBlank(fields)|
    ensures forall j, k :: 0 <= j < k < |kept| ==> kept[j] < kept[k]
    ensures forall i: nat :: i in kept <==> i < |fields| && fields[i] != ""
    ensures forall j :: 0 <= j < |kept| ==> kept[j] < |fields| && NonBlank(fields)[j] == fields[kept[j]]
  {
    hide NonBlank;
    NonBlankParts(fields);
    if fields == [] {
      return [];
    }
    var n := |fields| - 1;
    kept := KeepsNonBlank(fields[..n]);
    if fields[n] != "" {
      assert forall j :: 0 <= j < |kept| ==> kept[j] in kept;
      kept := kept + [n];
    }
  }

  lemma {:induction false} NonBlankParts(fields: seq<string>)
    ensures NonBlank([]) == []
    ensures fields != [] ==>
      var n := |fields| - 1;
      NonBlank(fields) == NonBlank(fields[..n]) + if fields[n] == "" then [] else [fields[n]]
  {
  }

  /** A message of fields with the delimiter between them is cut into those of them that are not empty. */
  lemma {:induction false} FieldsOfJoined(fields: seq<string>, c: char)
    requires fields != [] && forall f :: f in fields ==> c !in f
    ensures FieldsOf(Join(fields, [c]), [c]) == NonBlank(fields)
  {
    hide Split, Join;
    SplitJoin(fields, c);
  }

  /** Whatever the delimiter, the fields are the parts of the message between its places that are not empty;
      with an empty one, the runes. */
  lemma {:induction false} FieldsAreParts(s: string, d: string) returns (parts: seq<string>)
    ensures Join(parts, d) == s && FieldsOf(s, d) == NonBlank(parts)
    ensures if d == "" then forall f :: f in parts ==> |f| == 1 else forall f :: f in parts ==> !Contains(f, d)
  {
    hide Join, Contains, NonBlank, Explode;
    parts := Split(s, d);
    JoinSplit(s, d);
    if d == "" {
      ExplodesToRunes(s);
    } else {
      PartsAreFree(s, d);
    }
  }

  lemma {:induction false} ExplodesToRunes(s: string)
    ensures forall f :: f in Explode(s) ==> |f| == 1
  {
    if s != "" {
      ExplodesToRunes(s[1..]);
    }
  }

  /** Without settings, a cut replaces the delimiter between the fields of a message by a space. */
  lemma {:induction false} CutAtRune(e: Fields, fields: seq<string>, c: char)
    requires fields != [] && forall f :: f in fields ==> f != "" && c !in f
    ensures CutOf(e[MESSAGE := Join(fields, [c])], [c], map[]) == e[MESSAGE := Join(fields, " ")]
  {
    hide Join, FieldsOf, Written, Unmapped;
    var was := e[MESSAGE := Join(fields, [c])];
    FieldsOfJoined(fields, c);
    NonBlankStays(fields);
    NothingMapped(fields, |fields|);
    NothingWritten(was, fields, |fields|);
    assert fields[..|fields|] == fields;
  }

  /** With settings, each goes to the field at its place among those that the delimiter separates; the fields
      that go nowhere are the new message. */
  lemma {:induction false} CutPlaces(e: Fields, fields: seq<string>, c: char, order: seq<string>,
                                     sets: map<string, int>, t: string)
    requires fields != [] && forall f :: f in fields ==> f != "" && c !in f
    requires IsOrder(order, sets) && Injective(sets) && t != MESSAGE
    ensures
      var out := CutOf(e[MESSAGE := Join(fields, [c])], [c], SpecOf(order, sets));
      if t in sets && -|fields| <= sets[t] < |fields| then
        t in out && out[t] == fields[Place(sets[t], |fields|)]
      else
        (t in out <==> t in e) && (t in e ==> out[t] == e[t])
    ensures
      var out := CutOf(e[MESSAGE := Join(fields, [c])], [c], SpecOf(order, sets));
      MESSAGE in out && out[MESSAGE] == Join(Unmapped(SpecOf(order, sets), fields, |fields|), " ")
  {
    hide Join, FieldsOf, SpecOf, Written, Unmapped;
    FieldsOfJoined(fields, c);
    NonBlankStays(fields);
    CutWrites(e[MESSAGE := Join(fields, [c])], [c], order, sets, t);
  }

  /** An entry without a message stays as it is. */
  lemma {:induction false} NothingToCut(e: Fields, delimiter: string, spec: Spec)
    requires "@message" !in e
    ensures CutOf(e, delimiter, spec) == e
  {
  }

  /** cut with "," x set (f = 0), for the message a,b */
  lemma {:induction false} CutExample()
    ensures CutOf(map["@message" := "a,b"], ",", map[0 := "f"]) == map["@message" := "b", "f" := "a"]
  {
    hide FieldsOf, Join;
    var e, spec, fields := map["@message" := "a,b"], map[0 := "f"], ["a", "b"];
    ExampleFields();
    assert fields[..2] == fields;
    assert Written(e, spec, fields, 1) == e["f" := "a"];
    assert Written(e, spec, fields, 2) == e["f" := "a"];
    assert Unmapped(spec, fields, 1) == [];
    assert Unmapped(spec, fields, 2) == ["b"];
    JoinMore([], "b", " ");
    assert [] + ["b"] == ["b"];
  }

  lemma {:induction false} ExampleFields()
    ensures FieldsOf("a,b", ",") == ["a", "b"]
  {
    hide Split, Join;
    var fields := ["a", "b"];
    JoinParts(fields, ",");
    JoinParts(fields[1..], ",");
    assert Join(fields, ",") == "a,b";
    assert "," == [','];
    FieldsOfJoined(fields, ',');
    NonBlankStays(fields);
  }

  // ----- Cutting twice -------------------------------------------------------------------------

  lemma {:induction false} NothingMapped(fields: seq<string>, upTo: nat)
    requires upTo <= |fields|
    ensures Unmapped(map[], fields, upTo) == fields[..upTo]
  {
    if 0 < upTo {
      NothingMapped(fields, upTo - 1);
    }
  }

  lemma {:induction false} NothingWritten(e: Fields, fields: seq<string>, upTo: nat)
    requires upTo <= |fields|
    ensures Written(e, map[], fields, upTo) == e
  {
    if 0 < upTo {
      NothingWritten(e, fields, upTo - 1);
    }
  }

  /** Without the delimiter in them means, for a single rune, without that rune. */
  lemma {:induction false} FreeOfRune(s: string, c: char)
    requires !Contains(s, [c])
    ensures c !in s
  {
    forall j | 0 <= j < |s|
      ensures s[j] != c
    {
      assert [c] <= s[j..] <==> s[j] == c;
    }
  }

  lemma {:induction false} SplitHasNoSpaces(s: string)
    ensures forall f :: f in Split(s, " ") ==> ' ' !in f
  {
    hide Split, Contains;
    PartsAreFree(s, " ");
    forall f | f in Split(s, " ")
      ensures ' ' !in f
    {
      FreeOfRune(f, ' ');
    }
  }

  lemma {:induction false} NonBlankStays(fields: seq<string>)
    requires forall f :: f in fields ==> f != ""
    ensures NonBlank(fields) == fields
  {
    if fields != [] {
      var front := fields[..|fields| - 1];
      assert fields == front + [fields[|fields| - 1]];
      assert fields[|fields| - 1] in fields;
      assert forall f :: f in front ==> f in fields;
      NonBlankStays(front);
    }
  }

  /** Fields at spaces, joined with spaces, are the same fields again. */
  lemma {:induction false} FieldsTwice(s: string)
    ensures FieldsOf(Join(FieldsOf(s, " "), " "), " ") == FieldsOf(s, " ")
  {
    hide Split, Join;
    var fields := FieldsOf(s, " ");
    SplitHasNoSpaces(s);
    if fields == [] {
      JoinNothing();
      SplitNothing();
    } else {
      SplitJoin(fields, ' ');
      assert [' '] == " ";
      NonBlankStays(fields);
    }
  }

  lemma {:induction false} SplitNothing()
    ensures FieldsOf("", " ") == []
  {
  }

  /** Cutting at spaces without any settings a second time changes nothing. */
  lemma {:induction false} CutTwice(e: Fields)
    ensures CutOf(CutOf(e, " ", map[]), " ", map[]) == CutOf(e, " ", map[])
  {
    hide Join, FieldsOf, Written, Unmapped;
    if MESSAGE in e {
      var fields := FieldsOf(e[MESSAGE], " ");
      PlainCut(e, fields);
      var once := CutOf(e, " ", map[]);
      FieldsTwice(e[MESSAGE]);
      PlainCut(once, fields);
    }
  }

  lemma {:induction false} PlainCut(e: Fields, fields: seq<string>)
    requires MESSAGE in e && fields == FieldsOf(e[MESSAGE], " ")
    ensures CutOf(e, " ", map[]) == e[MESSAGE := Join(fields, " ")]
  {
    hide Join, FieldsOf;
    NothingMapped(fields, |fields|);
    NothingWritten(e, fields, |fields|);
    assert fields[..|fields|] == fields;
  }
}
