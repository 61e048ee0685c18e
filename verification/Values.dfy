/** What the literals of a script stand for: numbers, quoted texts and the settings of a cut. */
module Values {
  import opened Options
  import opened Runes
  import opened Tokens
  import opened LexSpec
  import opened LexPrint
  import opened Syntax

  // ----- Integers ------------------------------------------------------------------------------

  /** n in base 10. */
  function Decimal(n: nat): (s: string)
    ensures s != "" && forall k :: 0 <= k < |s| ==> '0' <= s[k] <= '9'
  {
    (if n < 10 then "" else Decimal(n / 10)) + [(n % 10) as char + '0']
  }

  function Zeros(k: nat): (s: string)
    ensures |s| == k && forall i :: 0 <= i < k ==> s[i] == '0'
  {
    if k == 0 then "" else ['0'] + Zeros(k - 1)
  }

  /** The text spells the integer: its sign, any zeros, and its digits. */
  ghost predicate Spells(s: string, n: int) {
    || (0 <= n && exists k :: s == Zeros(k) + Decimal(n))
    || (n <= 0 && exists k :: s == "-" + (Zeros(k) + Decimal(-n)))
  }

  lemma {:induction false} DigitsOfDecimal(n: nat)
    ensures Digits(Decimal(n)) == n
  {
    var s := Decimal(n);
    var last := |s| - 1;
    if n < 10 {
      assert s[..last] == "";
    } else {
      DigitsOfDecimal(n / 10);
      assert s[..last] == Decimal(n / 10);
    }
  }

  lemma {:induction false} ZerosAhead(k: nat, s: string)
    ensures Digits(Zeros(k) + s) == Digits(s)
    decreases |s|
  {
    var t := Zeros(k) + s;
    if s == "" {
      assert t == Zeros(k);
      OnlyZeros(k);
    } else {
      var last := |t| - 1;
      ZerosAhead(k, s[..|s| - 1]);
      assert t[..last] == Zeros(k) + s[..|s| - 1];
    }
  }

  lemma {:induction false} OnlyZeros(k: nat)
    ensures Digits(Zeros(k)) == 0
  {
    if 0 < k {
      OnlyZeros(k - 1);
      assert Zeros(k)[..k - 1] == Zeros(k - 1);
    }
  }

  lemma {:induction false} DigitsOfSpelling(k: nat, n: nat)
    ensures Digits(Zeros(k) + Decimal(n)) == n
  {
    hide Decimal, Zeros, Digits;
    ZerosAhead(k, Decimal(n));
    DigitsOfDecimal(n);
  }

  /** The value of a text is the integer that it spells. */
  lemma {:induction false} IntValueIs(s: string, n: int)
    requires Spells(s, n)
    ensures IntValue(s) == n
  {
    hide Decimal, Zeros, Digits;
    if k :| 0 <= n && s == Zeros(k) + Decimal(n) {
      DigitsOfSpelling(k, n);
      assert s[0] != '-';
    } else {
      var k :| n <= 0 && s == "-" + (Zeros(k) + Decimal(-n));
      assert s[1..] == Zeros(k) + Decimal(-n);
      DigitsOfSpelling(k, -n);
    }
  }

  lemma {:induction false} DecimalMore(n: nat, c: char)
    requires 0 < n && '0' <= c <= '9'
    ensures Decimal(10 * n + (c as int - '0' as int)) == Decimal(n) + [c]
  {
    var d := c as int - '0' as int;
    assert (10 * n + d) / 10 == n && (10 * n + d) % 10 == d;
    hide Decimal;
    DecimalParts(10 * n + d);
  }

  lemma {:induction false} DecimalParts(n: nat)
    ensures Decimal(n) == (if n < 10 then "" else Decimal(n / 10)) + [(n % 10) as char + '0']
  {
  }

  lemma {:induction false} DigitsMore(s: string, c: char)
    ensures Digits(s + [c]) == 10 * Digits(s) + (c as int - '0' as int)
  {
    assert (s + [c])[..|s|] == s;
  }

  lemma {:induction false} SpellsMore(front: string, k: nat, n: nat, c: char) returns (k': nat)
    requires front == Zeros(k) + Decimal(n) && '0' <= c <= '9'
    ensures front + [c] == Zeros(k') + Decimal(10 * n + (c as int - '0' as int))
  {
    hide Decimal, Zeros;
    if n == 0 {
      DecimalParts(0);
      DecimalParts(c as int - '0' as int);
      ZerosMore(k);
      k' := k + 1;
    } else {
      DecimalMore(n, c);
      assert Zeros(k) + Decimal(n) + [c] == Zeros(k) + (Decimal(n) + [c]);
      k' := k;
    }
  }

  /** Every string of digits is one of zeros and one of a number's. */
  lemma {:induction false} DigitsSpell(s: string) returns (k: nat)
    requires s != "" && forall i :: 0 <= i < |s| ==> '0' <= s[i] <= '9'
    ensures 0 <= Digits(s) && s == Zeros(k) + Decimal(Digits(s))
    decreases |s|
  {
    hide Digits, Decimal, Zeros;
    var front, c := s[..|s| - 1], s[|s| - 1];
    assert s == front + [c];
    DigitsMore(front, c);
    NoDigits();
    if front == "" {
      DecimalParts(c as int - '0' as int);
      k := 0;
    } else {
      k := DigitsSpell(front);
      k := SpellsMore(front, k, Digits(front), c);
    }
  }

  lemma {:induction false} NoDigits()
    ensures Digits("") == 0 && Zeros(0) == ""
  {
  }

  lemma {:induction false} ZerosMore(k: nat)
    ensures Zeros(k) + "0" == Zeros(k + 1)
  {
    assert forall i :: 0 <= i <= k ==> (Zeros(k) + "0")[i] == Zeros(k + 1)[i];
  }

  /** Every integer token spells its value, and nothing else. */
  lemma {:induction false} IntTokenSpells(s: string)
    requires s != "" && IsInt(s)
    ensures Spells(s, IntValue(s))
    ensures forall n :: Spells(s, n) ==> n == IntValue(s)
  {
    hide Spells, IntValue;
    SomeSpelling(s);
    forall n | Spells(s, n)
      ensures n == IntValue(s)
    {
      IntValueIs(s, n);
    }
  }

  lemma {:induction false} SomeSpelling(s: string)
    requires s != "" && IsInt(s)
    ensures Spells(s, IntValue(s))
  {
    hide Decimal, Zeros, Digits, Span;
    var (sign, whole) := WholePart(s);
    var digits := s[sign..];
    SpanIsLongest(digits, IsDigit, whole - sign);
    assert forall i :: 0 <= i < |digits| ==> IsDigit(digits[i]);
    var k := DigitsSpell(digits);
    if sign == 0 {
      assert digits == s;
    } else {
      assert s == "-" + digits;
    }
  }

  function Pow2(n: nat): int { if n == 0 then 1 else 2 * Pow2(n - 1) }

  /** An integer token is accepted exactly if its value fits into 64 bits with a sign. */
  lemma {:induction false} FitsInt64(s: string)
    requires s != "" && IsInt(s)
    ensures IntOk(s) <==> -Pow2(63) <= IntValue(s) < Pow2(63)
  {
    hide IntValue;
    assert Pow2(16) == 0x1_0000;
    PowerSum(16, 16);
    PowerSum(32, 16);
    PowerSum(48, 15);
    assert Pow2(15) == 0x8000;
  }

  lemma {:induction false} PowerSum(m: nat, n: nat)
    ensures Pow2(m + n) == Pow2(m) * Pow2(n)
  {
    if 0 < n {
      PowerSum(m, n - 1);
      assert Pow2(m + n) == 2 * Pow2(m + n - 1);
    }
  }

  // ----- Quoted texts --------------------------------------------------------------------------

  function Quoted(t: string): string { "\"" + t + "\"" }

  /** The usual reading of escapes, from left to right and each rune once; a backslash in front of any other
      rune stays. */
  function Unescaped(t: string): string {
    if |t| < 2 || t[0] != '\\' then if t == "" then "" else [t[0]] + Unescaped(t[1..])
    else if t[1] == 'r' then ['\r'] + Unescaped(t[2..])
    else if t[1] == 'n' then ['\n'] + Unescaped(t[2..])
    else if t[1] == 't' then ['\t'] + Unescaped(t[2..])
    else if t[1] == '"' then ['"'] + Unescaped(t[2..])
    else if t[1] == '\\' then ['\\'] + Unescaped(t[2..])
    else ['\\'] + Unescaped(t[1..])
  }

  /** The passes over a text whose quotes are gone. */
  function Passes(t: string): string {
    var t := ReplaceEscape(t, 'r', '\r');
    var t := ReplaceEscape(t, 'n', '\n');
    var t := ReplaceEscape(t, 't', '\t');
    var t := ReplaceEscape(t, '"', '"');
    ReplaceEscape(t, '\\', '\\')
  }

  lemma {:induction false} EscapeIsPasses(t: string)
    ensures Escape(Quoted(t)) == Passes(t)
  {
    hide ReplaceEscape;
    var s := Quoted(t);
    assert s[..|s| - 1] == "\"" + t && ("\"" + t)[1..] == t;
  }

  function Backslashes(m: nat): (s: string)
    ensures |s| == m && forall i :: 0 <= i < m ==> s[i] == '\\'
  {
    if m == 0 then "" else ['\\'] + Backslashes(m - 1)
  }

  lemma {:induction false} PassSteps(c: char, v: string, e: char, to: char)
    requires e != '\\'
    ensures c != '\\' ==> ReplaceEscape([c] + v, e, to) == [c] + ReplaceEscape(v, e, to)
    ensures ReplaceEscape(['\\', e] + v, e, to) == [to] + ReplaceEscape(v, e, to)
    ensures v != "" && v[0] != e ==> ReplaceEscape(['\\'] + v, e, to) == ['\\'] + ReplaceEscape(v, e, to)
  {
    assert ([c] + v)[1..] == v && (['\\', e] + v)[2..] == v && (['\\'] + v)[1..] == v;
  }

  /** A run of backslashes and the rune behind it, after a pass that does not look for backslashes. */
  lemma {:induction false} PassOver(m: nat, c: char, v: string, e: char, to: char)
    requires c != '\\' && e != '\\'
    ensures ReplaceEscape(Backslashes(m) + ([c] + v), e, to)
         == (if 0 < m && c == e then Backslashes(m - 1) + [to] else Backslashes(m) + [c]) + ReplaceEscape(v, e, to)
  {
    hide ReplaceEscape, Backslashes;
    var s := Backslashes(m) + ([c] + v);
    BackslashMore(0);
    if m == 0 {
      PassSteps(c, v, e, to);
      assert s == [c] + v;
    } else if m == 1 && c == e {
      PassSteps(c, v, e, to);
      assert s == ['\\', e] + v;
    } else {
      var rest := Backslashes(m - 1) + ([c] + v);
      PassOver(m - 1, c, v, e, to);
      BackslashMore(m - 1);
      if 1 < m {
        BackslashMore(m - 2);
      }
      PassSteps(c, rest, e, to);
      assert s == ['\\'] + rest;
    }
  }

  lemma {:induction false} PassOverRun(m: nat, e: char, to: char)
    requires e != '\\'
    ensures ReplaceEscape(Backslashes(m), e, to) == Backslashes(m)
  {
    if 1 < m {
      PassOverRun(m - 1, e, to);
      assert Backslashes(m)[1..] == Backslashes(m - 1);
    }
  }

  lemma {:induction false} HalvingStep(v: string)
    ensures ReplaceEscape(['\\', '\\'] + v, '\\', '\\') == ['\\'] + ReplaceEscape(v, '\\', '\\')
  {
    var s := ['\\', '\\'] + v;
    assert s[2..] == v;
  }

  lemma {:induction false} BackslashMore(m: nat)
    ensures Backslashes(0) == "" && Backslashes(m + 1) == ['\\'] + Backslashes(m)
  {
  }

  lemma {:induction false} BackslashPair(m: nat)
    ensures Backslashes(m + 2) == ['\\', '\\'] + Backslashes(m)
  {
  }

  /** The pass over the backslashes themselves halves a run; an odd one out stays. */
  lemma {:induction false} HalvingPass(m: nat, c: char, v: string)
    requires c != '\\'
    ensures ReplaceEscape(Backslashes(m) + ([c] + v), '\\', '\\')
         == Backslashes((m + 1) / 2) + ([c] + ReplaceEscape(v, '\\', '\\'))
  {
    hide ReplaceEscape, Backslashes;
    if m < 2 {
      HalvingShort(m, c, v);
    } else {
      var h := (m - 1) / 2;
      var rest := Backslashes(m - 2) + ([c] + v);
      HalvingPass(m - 2, c, v);
      BackslashPair(m - 2);
      BackslashMore(h);
      HalvingStep(rest);
      assert (m + 1) / 2 == h + 1 && (m - 2 + 1) / 2 == h;
      assert Backslashes(m) + ([c] + v) == ['\\', '\\'] + rest;
    }
  }

  lemma {:induction false} HalvingShort(m: nat, c: char, v: string)
    requires c != '\\' && m < 2
    ensures ReplaceEscape(Backslashes(m) + ([c] + v), '\\', '\\')
         == Backslashes((m + 1) / 2) + ([c] + ReplaceEscape(v, '\\', '\\'))
  {
    var s := [c] + v;
    assert s[1..] == v;
    assert (['\\'] + s)[1..] == s;
    assert Backslashes(0) + s == s && Backslashes(1) + s == ['\\'] + s;
  }

  lemma {:induction false} HalvingRun(m: nat)
    ensures ReplaceEscape(Backslashes(m), '\\', '\\') == Backslashes((m + 1) / 2)
  {
    if 1 < m {
      HalvingRun(m - 2);
      BackslashPair(m - 2);
      BackslashMore((m - 1) / 2);
      HalvingStep(Backslashes(m - 2));
    }
  }

  /** What a letter behind a backslash stands for; any other rune stands for itself. */
  function Control(c: char): char {
    match c
    case 'r' => '\r'
    case 'n' => '\n'
    case 't' => '\t'
    case _ => c
  }

  predicate IsEscape(c: char) { c == 'r' || c == 'n' || c == 't' || c == '"' }

  /** What all passes make of a run of backslashes and the rune behind it: the last backslash goes with the
      rune, whether it is itself behind a backslash or not, and what is left of the run is halved. */
  function Passed(m: nat, c: char): (s: string)
    ensures |s| == (m + 1) / 2 + if 0 < m && m % 2 == 1 && IsEscape(c) then 0 else 1
  {
    if 0 < m && IsEscape(c) then Backslashes(m / 2) + [Control(c)] else Backslashes((m + 1) / 2) + [c]
  }

  lemma {:induction false} PassesOver(m: nat, c: char, v: string)
    requires c != '\\'
    ensures Passes(Backslashes(m) + ([c] + v)) == Passed(m, c) + Passes(v)
  {
    hide ReplaceEscape, Backslashes;
    var v1 := ReplaceEscape(v, 'r', '\r');
    var v2 := ReplaceEscape(v1, 'n', '\n');
    var v3 := ReplaceEscape(v2, 't', '\t');
    var v4 := ReplaceEscape(v3, '"', '"');
    OnePass(m, c, v, 'r', '\r');
    var m1, c1 := Kept(m, c, 'r'), Turned(m, c, 'r', '\r');
    OnePass(m1, c1, v1, 'n', '\n');
    var m2, c2 := Kept(m1, c1, 'n'), Turned(m1, c1, 'n', '\n');
    OnePass(m2, c2, v2, 't', '\t');
    var m3, c3 := Kept(m2, c2, 't'), Turned(m2, c2, 't', '\t');
    OnePass(m3, c3, v3, '"', '"');
    var m4 := Kept(m3, c3, '"');
    HalvingPass(m4, c3, v4);
    assert m4 == (if 0 < m && IsEscape(c) then m - 1 else m) && c3 == if 0 < m then Control(c) else c;
    assert Backslashes((m4 + 1) / 2) + ([c3] + Passes(v)) == Backslashes((m4 + 1) / 2) + [c3] + Passes(v);
  }

  function Kept(m: nat, c: char, e: char): nat { if 0 < m && c == e then m - 1 else m }

  function Turned(m: nat, c: char, e: char, to: char): char { if 0 < m && c == e then to else c }

  lemma {:induction false} OnePass(m: nat, c: char, v: string, e: char, to: char)
    requires c != '\\' && e != '\\'
    ensures ReplaceEscape(Backslashes(m) + ([c] + v), e, to)
         == Backslashes(Kept(m, c, e)) + ([Turned(m, c, e, to)] + ReplaceEscape(v, e, to))
  {
    hide ReplaceEscape, Backslashes;
    PassOver(m, c, v, e, to);
  }

  lemma {:induction false} PassesOverRun(m: nat)
    ensures Passes(Backslashes(m)) == Backslashes((m + 1) / 2)
  {
    hide ReplaceEscape, Backslashes;
    PassOverRun(m, 'r', '\r');
    PassOverRun(m, 'n', '\n');
    PassOverRun(m, 't', '\t');
    PassOverRun(m, '"', '"');
    HalvingRun(m);
  }

  lemma {:induction false} UnescapedPlain(c: char, v: string)
    requires c != '\\'
    ensures Unescaped([c] + v) == [c] + Unescaped(v)
  {
    assert ([c] + v)[1..] == v;
  }

  lemma {:induction false} UnescapedPair(v: string)
    ensures Unescaped(['\\', '\\'] + v) == ['\\'] + Unescaped(v)
  {
    assert (['\\', '\\'] + v)[2..] == v;
  }

  lemma {:induction false} UnescapedOne(c: char, v: string)
    requires c != '\\'
    ensures Unescaped(['\\', c] + v) == (if IsEscape(c) then [Control(c)] else ['\\', c]) + Unescaped(v)
  {
    var s := ['\\', c] + v;
    assert s[2..] == v && s[1..] == [c] + v;
    if !IsEscape(c) {
      UnescapedPlain(c, v);
    }
  }

  /** The usual reading of the same. */
  function Usual(m: nat, c: char): (s: string)
    ensures |s| == (m + 1) / 2 + if 0 < m && m % 2 == 1 && IsEscape(c) then 0 else 1
  {
    if m % 2 == 1 && IsEscape(c) then Backslashes(m / 2) + [Control(c)] else Backslashes((m + 1) / 2) + [c]
  }

  lemma {:induction false} UsualMore(m: nat, c: char)
    ensures Usual(m + 2, c) == ['\\'] + Usual(m, c)
  {
    BackslashMore(m / 2);
    BackslashMore((m + 1) / 2);
  }

  lemma {:induction false} UnescapedOver(m: nat, c: char, v: string)
    requires c != '\\'
    ensures Unescaped(Backslashes(m) + ([c] + v)) == Usual(m, c) + Unescaped(v)
  {
    hide Unescaped, Backslashes, IsEscape, Control;
    if m < 2 {
      UnescapedShort(m, c, v);
    } else {
      hide Usual;
      var rest := Backslashes(m - 2) + ([c] + v);
      UnescapedOver(m - 2, c, v);
      BackslashPair(m - 2);
      UsualMore(m - 2, c);
      UnescapedPair(rest);
      assert Backslashes(m) + ([c] + v) == ['\\', '\\'] + rest;
    }
  }

  lemma {:induction false} UnescapedShort(m: nat, c: char, v: string)
    requires c != '\\' && m < 2
    ensures Unescaped(Backslashes(m) + ([c] + v)) == Usual(m, c) + Unescaped(v)
  {
    hide Unescaped, IsEscape, Control;
    UnescapedPlain(c, v);
    UnescapedOne(c, v);
    assert Backslashes(0) + ([c] + v) == [c] + v && Backslashes(1) + ([c] + v) == ['\\', c] + v;
    assert Backslashes(0) == "" && Backslashes(1) == "\\";
  }

  lemma {:induction false} UnescapedOverRun(m: nat)
    ensures Unescaped(Backslashes(m)) == Backslashes((m + 1) / 2)
  {
    if 1 < m {
      UnescapedOverRun(m - 2);
      BackslashPair(m - 2);
      BackslashMore((m - 1) / 2);
      UnescapedPair(Backslashes(m - 2));
    }
  }

  // ----- When the two readings agree -----------------------------------------------------------

  /** A text is a run of backslashes, or one with another rune and a text behind it. */
  lemma {:induction false} HeadRun(t: string) returns (m: nat, v: string)
    ensures m <= |t| && t[..m] == Backslashes(m) && (m < |t| ==> t[m] != '\\' && v == t[m + 1..])
    ensures t == Backslashes(m) + if m == |t| then "" else [t[m]] + v
  {
    m := 0;
    while m < |t| && t[m] == '\\'
      invariant m <= |t| && forall i :: 0 <= i < m ==> t[i] == '\\'
    {
      m := m + 1;
    }
    v := if m < |t| then t[m + 1..] else "";
    assert t == t[..m] + t[m..];
  }

  /** How many backslashes stand directly in front of the k-th rune. */
  function RunBefore(t: string, k: nat): (n: nat)
    requires k <= |t|
    ensures n <= k
  {
    if 0 < k && t[k - 1] == '\\' then 1 + RunBefore(t, k - 1) else 0
  }

  /** An r, n or t stands behind an even number of backslashes, but not none: each of them is escaped, and
      the letter is not. */
  predicate IsMisread(t: string, k: nat)
    requires k < |t|
  {
    (t[k] == 'r' || t[k] == 'n' || t[k] == 't') && 0 < RunBefore(t, k) && RunBefore(t, k) % 2 == 0
  }

  predicate SomeMisread(t: string) { exists k :: 0 <= k < |t| && IsMisread(t, k) }

  lemma {:induction false} RunInFront(t: string, m: nat, k: nat)
    requires k <= m <= |t| && forall i :: 0 <= i < m ==> t[i] == '\\'
    ensures RunBefore(t, k) == k
  {
    if 0 < k {
      RunInFront(t, m, k - 1);
    }
  }

  lemma {:induction false} RunBehind(t: string, m: nat, k: nat)
    requires m < |t| && t[m] != '\\' && k <= |t| - m - 1
    ensures RunBefore(t, m + 1 + k) == RunBefore(t[m + 1..], k)
  {
    if 0 < k {
      RunBehind(t, m, k - 1);
      assert t[m + k] == t[m + 1..][k - 1];
    }
  }

  /** Whether some rune is misread shows run by run. */
  lemma {:induction false} MisreadParts(t: string, m: nat)
    requires m <= |t| && (forall i :: 0 <= i < m ==> t[i] == '\\') && (m < |t| ==> t[m] != '\\')
    ensures m == |t| ==> !SomeMisread(t)
    ensures m < |t| ==> (SomeMisread(t) <==> IsMisread(t, m) || SomeMisread(t[m + 1..]))
    ensures m < |t| ==> RunBefore(t, m) == m
  {
    hide RunBefore;
    RunInFront(t, m, m);
    if m < |t| {
      var v := t[m + 1..];
      forall k: nat | m < k < |t|
        ensures IsMisread(t, k) <==> IsMisread(v, k - m - 1)
      {
        RunBehind(t, m, k - m - 1);
        assert t[k] == v[k - m - 1];
      }
      if SomeMisread(v) {
        var k: nat :| k < |v| && IsMisread(v, k);
        assert IsMisread(t, m + 1 + k);
      }
    }
  }

  lemma {:induction false} SameParts<T>(a: seq<T>, b: seq<T>, c: seq<T>, d: seq<T>)
    requires |a| == |b|
    ensures a + c == b + d <==> a == b && c == d
  {
    if a + c == b + d {
      assert a == (a + c)[..|a|] && b == (b + d)[..|b|];
      assert c == (a + c)[|a|..] && d == (b + d)[|b|..];
    }
  }

  /** The passes give the usual reading of a text exactly if none of its letters r, n and t stands behind an
      escaped backslash. */
  lemma {:induction false} EscapeIff(t: string)
    ensures Escape(Quoted(t)) == Unescaped(t) <==> !SomeMisread(t)
    decreases |t|
  {
    hide *;
    EscapeIsPasses(t);
    var m, v := HeadRun(t);
    MisreadParts(t, m);
    if m == |t| {
      PassesOverRun(m);
      UnescapedOverRun(m);
      assert t == t[..m] == Backslashes(m);
    } else {
      var c := t[m];
      assert t == Backslashes(m) + ([c] + v);
      EscapeIff(v);
      EscapeIsPasses(v);
      PassesOver(m, c, v);
      UnescapedOver(m, c, v);
      PassedIff(m, c);
      MisreadIs(t, m);
      SameParts(Passed(m, c), Usual(m, c), Passes(v), Unescaped(v));
    }
  }

  lemma {:induction false} PassedIff(m: nat, c: char)
    ensures |Passed(m, c)| == |Usual(m, c)|
    ensures Passed(m, c) == Usual(m, c) <==> !((c == 'r' || c == 'n' || c == 't') && 0 < m && m % 2 == 0)
  {
    hide Backslashes;
    if m % 2 == 0 {
      assert m / 2 == (m + 1) / 2;
      var p, q := Backslashes(m / 2) + [Control(c)], Backslashes((m + 1) / 2) + [c];
      assert p[m / 2] == Control(c) && q[m / 2] == c;
    }
  }

  lemma {:induction false} MisreadIs(t: string, k: nat)
    requires k < |t|
    ensures IsMisread(t, k)
      <==> (t[k] == 'r' || t[k] == 'n' || t[k] == 't') && 0 < RunBefore(t, k) && RunBefore(t, k) % 2 == 0
  {
  }

  /** A text without backslashes is what stands between its quotes. */
  lemma {:induction false} PlainText(t: string)
    requires '\\' !in t
    ensures Escape(Quoted(t)) == t == Unescaped(t) && !SomeMisread(t)
    decreases |t|
  {
    hide Escape, SomeMisread;
    NoneMisread(t);
    EscapeIff(t);
    if t != "" {
      assert t[0] in t;
      PlainText(t[1..]);
    }
  }

  lemma {:induction false} NoneMisread(t: string)
    requires '\\' !in t
    ensures !SomeMisread(t)
  {
    forall k | 0 <= k < |t|
      ensures !IsMisread(t, k)
    {
      assert 0 < k ==> t[k - 1] in t;
    }
  }

  /** The five escapes; the first four whatever stands behind them. */
  lemma {:induction false} FiveEscapes(v: string)
    ensures Escape(Quoted("\\r" + v)) == "\r" + Escape(Quoted(v))
    ensures Escape(Quoted("\\n" + v)) == "\n" + Escape(Quoted(v))
    ensures Escape(Quoted("\\t" + v)) == "\t" + Escape(Quoted(v))
    ensures Escape(Quoted("\\\"" + v)) == "\"" + Escape(Quoted(v))
    ensures Escape(Quoted("\\\\")) == "\\"
  {
    hide Escape, Passes, Quoted;
    EscapeOf("\\r", 'r', v);
    EscapeOf("\\n", 'n', v);
    EscapeOf("\\t", 't', v);
    EscapeOf("\\\"", '"', v);
    EscapeIsPasses("\\\\");
    PassesOverRun(2);
    assert Backslashes(2) == "\\\\" && Backslashes(1) == "\\";
  }

  lemma {:induction false} EscapeOf(pair: string, c: char, v: string)
    requires pair == ['\\', c] && IsEscape(c)
    ensures Escape(Quoted(pair + v)) == [Control(c)] + Escape(Quoted(v))
  {
    hide Escape, Passes, Quoted;
    EscapeIsPasses(pair + v);
    EscapeIsPasses(v);
    PassesOver(1, c, v);
    assert Backslashes(1) + ([c] + v) == pair + v;
    assert Passed(1, c) == [Control(c)];
  }

  lemma {:induction false} PassesOverPlain(c: char, v: string)
    requires c != '\\'
    ensures Passes([c] + v) == [c] + Passes(v)
  {
    hide Passes;
    PassesOver(0, c, v);
    assert Backslashes(0) + ([c] + v) == [c] + v;
    assert Passed(0, c) == [c];
  }

  /** A path as it should be written, and what the passes make of it: a newline behind a backslash. */
  lemma {:induction false} MisreadPath()
    ensures Escape(Quoted("c:\\\\new")) == "c:\\\new"
    ensures Unescaped("c:\\\\new") == "c:\\new"
  {
    hide Escape, Passes, Unescaped, Quoted;
    EscapeIsPasses("c:\\\\new");
    PassesOverPlain('c', ":\\\\new");
    PassesOverPlain(':', "\\\\new");
    PathBehind();
    assert ['c'] + ":\\\\new" == "c:\\\\new" && [':'] + "\\\\new" == ":\\\\new";
    UnescapedPlain('c', ":\\\\new");
    UnescapedPlain(':', "\\\\new");
  }

  lemma {:induction false} PathBehind()
    ensures Passes("\\\\new") == "\\\new" && Unescaped("\\\\new") == "\\new"
  {
    hide Escape, Passes, Unescaped, Quoted;
    PassesOver(2, 'n', "ew");
    PlainText("ew");
    EscapeIsPasses("ew");
    assert Backslashes(2) + (['n'] + "ew") == "\\\\new" && Passed(2, 'n') == "\\\n";
    UnescapedPair("new");
    PlainText("new");
    assert ['\\', '\\'] + "new" == "\\\\new";
  }

  // ----- What the nodes of a statement say -----------------------------------------------------

  /** A value is the reading of a quoted text that is not misread. */
  ghost predicate Reads(text: string, value: string) {
    forall t :: text == Quoted(t) && !SomeMisread(t) ==> value == Unescaped(t)
  }

  ghost predicate ArgSays(x: Shape, a: Arg) {
    match x.typ
    case STRING => a.StringArg? && a.text == x.text && Reads(x.text, a.value)
    case NUMBER => a == NumberArg(x.text)
    case INT => a.IntArg? && a.text == x.text && Spells(x.text, a.int_)
    case IDENTIFIER => a == IdentifierArg(x.text)
    case _ => false
  }

  ghost predicate ArgsSay(xs: seq<Shape>, args: seq<Arg>) {
    |args| == |xs| && forall k :: 0 <= k < |xs| ==> ArgSays(xs[k], args[k])
  }

  /** Each name stands for the number of its last setting. */
  ghost predicate SettingsSay(fields: seq<(string, string)>, sets: map<string, int>) {
    && (forall f :: f in sets <==> exists k :: 0 <= k < |fields| && fields[k].0 == f)
    && forall k :: 0 <= k < |fields| && (forall j :: k < j < |fields| ==> fields[j].0 != fields[k].0) ==>
         fields[k].0 in sets && Spells(fields[k].1, sets[fields[k].0])
  }

  ghost predicate PatternsSay(texts: seq<string>, patterns: seq<string>) {
    |patterns| == |texts| && forall k :: 0 <= k < |texts| ==> Reads(texts[k], patterns[k])
  }

  /** What the fields of a node say is what was written in its statement. */
  ghost predicate FieldsSay(s: Stmt, f: Fields) {
    match s
    case Blank => f.EolNode?
    case Source(id, q, c, args) =>
      f.SourceNode? && f.id == id && f.qualifier == q && f.class_ == c && ArgsSay(args, f.args)
    case Sink(src, q, c, args) =>
      f.SinkNode? && f.source == src && f.qualifier == q && f.class_ == c && ArgsSay(args, f.args)
    case AsyncSink(src, id, q, c, args) =>
      f.SinkNode? && f.source == src && f.id == id && f.qualifier == q && f.class_ == c && ArgsSay(args, f.args)
    case Merge(a, b, id) => f.MergeNode? && f.sourceA == a && f.sourceB == b && f.id == id
    case Dupe(src, a, b) => f.DupeNode? && f.source == src && f.targetA == a && f.targetB == b
    case Append(src, target) => f.AppendNode? && f.source == src && f.target == target
    case Cut(delimiter, src, fields) =>
      && f.CutNode? && f.source == src && SettingsSay(fields, f.fieldSets)
      && (if delimiter.None? then f.delimiter == " " else Reads(delimiter.value, f.delimiter))
    case Fanout(src, a, b) => f.FanoutNode? && f.source == src && f.targetA == a && f.targetB == b
    case Tag(src, tag) => f.TagNode? && f.source == src && Reads(tag, f.tag)
    case Join(src, patterns) => f.JoinNode? && f.source == src && PatternsSay(patterns, f.patterns)
  }

  lemma {:induction false} EscapeReads(text: string)
    ensures Reads(text, Escape(text))
  {
    hide Escape, Quoted, Unescaped, SomeMisread;
    forall t | text == Quoted(t) && !SomeMisread(t)
      ensures Escape(text) == Unescaped(t)
    {
      EscapeIff(t);
    }
  }

  lemma {:induction false} ArgSaysIt(x: Shape, eng: Engine)
    requires ArgOk(x, eng)
    ensures ArgSays(x, ArgOf(x))
  {
    hide Escape, Reads, Spells, IntValue, IsInt;
    if x.typ.STRING? {
      EscapeReads(x.text);
    } else if x.typ.INT? {
      IntTokenSpells(x.text);
    }
  }

  lemma {:induction false} ArgsSayIt(xs: seq<Shape>, eng: Engine)
    requires ArgsOk(xs, eng)
    ensures ArgsSay(xs, ArgsOf(xs))
  {
    hide ArgOf, ArgSays, ArgOk;
    if xs != [] {
      ArgSaysIt(xs[0], eng);
      ArgsSayIt(xs[1..], eng);
    }
  }

  lemma {:induction false} SettingsKeys(fields: seq<(string, string)>, f: string)
    ensures f in FieldSets(fields) <==> exists k :: 0 <= k < |fields| && fields[k].0 == f
  {
    hide IntValue;
    if fields != [] {
      var n := |fields| - 1;
      var front := fields[..n];
      SettingsKeys(front, f);
      if k :| 0 <= k < |fields| && fields[k].0 == f {
        assert k < n ==> front[k].0 == f;
      }
      if k :| 0 <= k < |front| && front[k].0 == f {
        assert fields[k].0 == f;
      }
    }
  }

  lemma {:induction false} LastSetting(fields: seq<(string, string)>, k: nat)
    requires k < |fields| && forall j :: k < j < |fields| ==> fields[j].0 != fields[k].0
    ensures fields[k].0 in FieldSets(fields) && FieldSets(fields)[fields[k].0] == IntValue(fields[k].1)
  {
    hide IntValue;
    var n := |fields| - 1;
    if k < n {
      LastSetting(fields[..n], k);
    }
  }

  lemma {:induction false} SettingsSayIt(fields: seq<(string, string)>)
    requires FieldsOk(fields)
    ensures SettingsSay(fields, FieldSets(fields))
  {
    hide Spells, IntValue, IntOk, FieldSets;
    var sets := FieldSets(fields);
    forall f
      ensures f in sets <==> exists k :: 0 <= k < |fields| && fields[k].0 == f
    {
      SettingsKeys(fields, f);
    }
    forall k | 0 <= k < |fields| && (forall j :: k < j < |fields| ==> fields[j].0 != fields[k].0)
      ensures fields[k].0 in sets && Spells(fields[k].1, sets[fields[k].0])
    {
      LastSetting(fields, k);
      NumberSpells(fields[k].1);
    }
  }

  lemma {:induction false} NumberSpells(s: string)
    requires IntOk(s)
    ensures Spells(s, IntValue(s))
  {
    hide Spells, IntValue;
    IntTokenSpells(s);
  }

  lemma {:induction false} PatternsSayIt(texts: seq<string>)
    ensures PatternsSay(texts, Escapes(texts))
  {
    hide Escape, Reads;
    if texts != [] {
      EscapeReads(texts[0]);
      PatternsSayIt(texts[1..]);
    }
  }

  lemma {:induction false} FieldsSayIt(s: Stmt, eng: Engine)
    requires LiteralsOk(s, eng)
    ensures FieldsSay(s, FieldsOf(s))
  {
    hide ArgsOk, ArgsSay, ArgsOf, FieldsOk, SettingsSay, FieldSets, PatternsSay, Escapes, Reads, Escape;
    match s
    case Source(_, _, _, args) => ArgsSayIt(args, eng);
    case Sink(_, _, _, args) => ArgsSayIt(args, eng);
    case AsyncSink(_, _, _, _, args) => ArgsSayIt(args, eng);
    case Cut(delimiter, _, fields) =>
      SettingsSayIt(fields);
      if delimiter.Some? {
        EscapeReads(delimiter.value);
      }
    case Tag(_, tag) => EscapeReads(tag);
    case Join(_, patterns) => PatternsSayIt(patterns);
    case _ =>
  }
}
