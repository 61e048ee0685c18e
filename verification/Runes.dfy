/** Classes of runes used by the lexer, and the longest run of a class at the head of a string. */
module Runes {

  /** The White_Space property, as Go's unicode.IsSpace decides it. */
  predicate IsSpace(c: char) {
    || '\t' <= c <= '\r'
    || c == ' ' || c == '\U{85}' || c == '\U{A0}' || c == '\U{1680}'
    || '\U{2000}' <= c <= '\U{200A}'
    || c == '\U{2028}' || c == '\U{2029}' || c == '\U{202F}' || c == '\U{205F}' || c == '\U{3000}'
  }

  /** White space that separates tokens: a newline is a token of its own. */
  predicate IsBlank(c: char) { IsSpace(c) && c != '\n' }

  /** Runes that do not end the chunk in which a keyword is looked for. */
  predicate IsWordRune(c: char) { !IsSpace(c) && c != '(' && c != '.' && c != ')' }

  predicate IsMinus(c: char) { c == '-' }

  predicate IsPoint(c: char) { c == '.' }

  predicate IsDigit(c: char) { '0' <= c <= '9' }

  predicate IsAlpha(c: char) { 'a' <= c <= 'z' || 'A' <= c <= 'Z' }

  predicate IsIdStart(c: char) { IsAlpha(c) || c == '@' }

  predicate IsIdRest(c: char) { IsAlpha(c) || IsDigit(c) || c == '_' }

  /** Length of the longest prefix of s whose runes all satisfy f. */
  function Span(s: string, f: char -> bool): (n: nat)
    ensures n <= |s|
  {
    if s != "" && f(s[0]) then 1 + Span(s[1..], f) else 0
  }

  /** Span is the only length of a run of f that no rune of f follows. */
  lemma {:induction false} SpanIsLongest(s: string, f: char -> bool, n: nat)
    requires n <= |s|
    ensures
      Span(s, f) == n <==>
        && (forall k :: 0 <= k < n ==> f(s[k]))
        && (n < |s| ==> !f(s[n]))
  {
    if s != "" && f(s[0]) {
      if 0 < n {
        SpanIsLongest(s[1..], f, n - 1);
        assert forall k :: 0 < k < n ==> s[k] == s[1..][k - 1];
        assert forall k :: 0 <= k < n - 1 ==> s[1..][k] == s[k + 1];
      }
    }
  }

  lemma {:induction false} SpanStep(s: string, p: nat, f: char -> bool)
    requires p <= |s|
    ensures Span(s[p..], f) == if p < |s| && f(s[p]) then 1 + Span(s[p + 1..], f) else 0
  {
  }

  /** The rest of a run, seen from inside it. */
  lemma {:induction false} SpanFrom(s: string, f: char -> bool, k: nat)
    requires k <= Span(s, f)
    ensures Span(s, f) == k + Span(s[k..], f)
  {
    if k == 0 {
      assert s[0..] == s;
    } else {
      SpanFrom(s[1..], f, k - 1);
      assert s[1..][k - 1..] == s[k..];
    }
  }

  /** An identifier that starts in a chunk ends in it. */
  lemma {:induction false} IdentifierInChunk(s: string, from: nat)
    requires from <= Span(s, IsWordRune) && from < |s| && IsIdStart(s[from])
    ensures from + 1 + Span(s[from + 1..], IsIdRest) <= Span(s, IsWordRune)
  {
    SpanFrom(s, IsWordRune, from);
    SpanStep(s, from, IsWordRune);
    SpanNarrower(s[from + 1..], IsIdRest, IsWordRune);
  }

  lemma {:induction false} SpanNarrower(s: string, f: char -> bool, g: char -> bool)
    requires forall c :: f(c) ==> g(c)
    ensures Span(s, f) <= Span(s, g)
  {
    if s != "" {
      SpanNarrower(s[1..], f, g);
    }
  }

  function Min(a: int, b: int): int { if a < b then a else b }

  function Max(a: int, b: int): int { if a < b then b else a }
}
