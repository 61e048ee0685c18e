/** The lexer's ring buffer: a window over the text that keeps at most size-1 runes. */
module RuneBuffer {
  import opened Runes

  /** The slot that lies k places after slot i in a ring of n slots. */
  function Slot(i: nat, k: nat, n: nat): int {
    if i + k < n then i + k else i + k - n
  }

  /** The ring holds text[s..w] from slot start on. */
  ghost predicate Holds(ring: seq<char>, start: nat, text: string, s: nat, w: nat) {
    && start < |ring|
    && s <= w <= |text| && w - s <= |ring|
    && forall k :: s <= k < w ==> ring[Slot(start, k - s, |ring|)] == text[k]
  }

  /** Giving up the oldest rune. */
  lemma {:induction false} Dropped(ring: seq<char>, start: nat, text: string, s: nat, w: nat)
    requires Holds(ring, start, text, s, w) && s < w
    ensures Holds(ring, Slot(start, 1, |ring|), text, s + 1, w)
  {
  }

  class LexBuf {
    var startPtr: nat
    var readPtr: nat
    var writePtr: nat
    const buf: array<char>
    var reader: string // what the rune reader has yet to deliver

    // The whole text, and the absolute positions that the three pointers stand for.
    ghost const text: string
    ghost var s: nat
    ghost var p: nat
    ghost var w: nat

    /** The pointers and the ring describe a window of at most n runes. */
    ghost predicate Window(n: int)
      reads this, buf
    {
      && 2 <= buf.Length
      && startPtr < buf.Length && readPtr < buf.Length && writePtr < buf.Length
      && s <= p <= w && w - s <= n <= buf.Length
      && readPtr == Slot(startPtr, p - s, buf.Length)
      && writePtr == Slot(startPtr, w - s, buf.Length)
      && Holds(buf[..], startPtr, text, s, w)
      && reader == text[w..]
    }

    ghost predicate Valid()
      reads this, buf
      ensures Valid() ==> 2 <= buf.Length && s <= p <= w <= |text| && w - s < buf.Length
    {
      Window(buf.Length - 1)
    }

    /** Most runes that the window can hold. */
    ghost function Cap(): int
    {
      buf.Length - 1
    }

    constructor (input: string, size: nat)
      requires 2 <= size
      ensures Valid() && fresh(buf) && buf.Length == size
      ensures text == input && s == p == w == 0
    {
      startPtr, readPtr, writePtr := 0, 0, 0;
      buf := new char[size](_ => ' ');
      reader := input;
      text, s, p, w := input, 0, 0, 0;
    }

    method Increment(i: nat) returns (r: nat)
      requires i < buf.Length
      ensures r == Slot(i, 1, buf.Length) && r < buf.Length
    {
      r := (i + 1) % buf.Length;
    }

    method Decrement(i: nat) returns (r: nat)
      requires i < buf.Length
      ensures r < buf.Length && i == Slot(r, 1, buf.Length)
    {
      r := (i - 1 + buf.Length) % buf.Length;
    }

    /** Puts the reader's next rune at the end of the window. */
    method Store()
      requires Valid() && reader != ""
      modifies `reader, `writePtr, `w, buf
      ensures Window(buf.Length) && w == old(w) + 1
    {
      buf[writePtr] := reader[0];
      reader := reader[1..];
      writePtr := Increment(writePtr);
      w := w + 1;
    }

    /** Fetches one more rune; a full window loses its oldest one. */
    method ReaderRead() returns (eof: bool)
      requires Valid() && p == w
      modifies this, buf
      ensures Valid() && p == old(p)
      ensures eof == (old(w) == |text|)
      ensures eof ==> s == old(s) && w == old(w)
      ensures !eof ==> w == old(w) + 1 && s == Max(old(s), w - Cap())
    {
      if reader == "" {
        return true;
      }
      hide Holds;
      Store();
      if startPtr == writePtr {
        Dropped(buf[..], startPtr, text, s, w);
        startPtr := Increment(startPtr);
        s := s + 1;
      }
      eof := false;
    }

    /** The rune under the read position, fetched if need be. */
    method Peek() returns (c: char, eof: bool)
      requires Valid()
      modifies this, buf
      ensures Valid() && p == old(p)
      ensures eof == (p == |text|)
      ensures eof ==> s == old(s) && w == old(w)
      ensures !eof ==> c == text[p] && w == Max(old(w), p + 1) && s == Max(old(s), p + 1 - Cap())
    {
      if readPtr == writePtr {
        var _ := ReaderRead();
      }
      if readPtr == writePtr {
        return ' ', true;
      }
      return buf[readPtr], false;
    }

    method Read() returns (c: char, eof: bool)
      requires Valid()
      modifies this, buf
      ensures Valid()
      ensures eof == (old(p) == |text|)
      ensures eof ==> s == old(s) && p == old(p) && w == old(w)
      ensures !eof ==> c == text[old(p)] && p == old(p) + 1
      ensures !eof ==> w == Max(old(w), p) && s == Max(old(s), p - Cap())
      ensures !eof ==> s < p // so that an Unread right after steps back by exactly one rune
    {
      c, eof := Peek();
      if !eof {
        readPtr := Increment(readPtr);
        p := p + 1;
      }
    }

    /** Steps back one rune, but never past the start of the window. */
    method Unread()
      requires Valid()
      modifies `readPtr, `p
      ensures Valid() && p == Max(s, old(p) - 1)
    {
      if readPtr == startPtr {
        return;
      }
      readPtr := Decrement(readPtr);
      p := p - 1;
    }

    method Reset()
      requires Valid()
      modifies `readPtr, `p
      ensures Valid() && p == s
    {
      readPtr := startPtr;
      p := s;
    }

    method Discard()
      requires Valid()
      modifies `startPtr, `s
      ensures Valid() && s == p
    {
      startPtr := readPtr;
      s := p;
    }

    method Preview() returns (t: string)
      requires Valid()
      ensures t == text[s..p]
    {
      if startPtr == readPtr {
        return "";
      }
      if startPtr > readPtr {
        t := buf[startPtr..] + buf[..readPtr];
      } else {
        t := buf[startPtr..readPtr];
      }
      forall j | 0 <= j < |t|
        ensures t[j] == text[s + j]
      {
        var k := s + j;
        assert buf[Slot(startPtr, k - s, buf.Length)] == text[k];
      }
    }

    method Consume() returns (t: string)
      requires Valid()
      modifies `startPtr, `s
      ensures Valid() && s == p
      ensures t == text[old(s)..p]
    {
      t := Preview();
      Discard();
    }

    /** How far a scan that stopped at the current position has looked: at most one rune ahead. */
    ghost function Reach(): int
      reads this
    {
      Min(p + 1, |text|)
    }

    /** The step that the scanners share: read a rune, and give it back if it is not in the class. */
    method Take(class_: char -> bool) returns (taken: bool, eof: bool)
      requires Valid()
      modifies this, buf
      ensures Valid()
      ensures eof == (old(p) == |text|)
      ensures taken == (!eof && class_(text[old(p)]))
      ensures p == if taken then old(p) + 1 else old(p)
      ensures s == Max(old(s), old(Reach()) - Cap())
    {
      var c;
      c, eof := Read();
      if eof {
        return false, true;
      }
      if !class_(c) {
        Unread();
      }
      return class_(c), false;
    }

    /** Accepts at most one rune of the class. */
    method AcceptOne(class_: char -> bool) returns (found: bool)
      requires Valid()
      modifies this, buf
      ensures Valid()
      ensures found == (old(p) < |text| && class_(text[old(p)]))
      ensures p == if found then old(p) + 1 else old(p)
      ensures s == Max(old(s), old(Reach()) - Cap())
    {
      var eof;
      found, eof := Take(class_);
    }

    /** Accepts the longest run of runes in the class. */
    method Accept(class_: char -> bool) returns (found: bool)
      requires Valid()
      modifies this, buf
      ensures Valid()
      ensures p == old(p) + Span(text[old(p)..], class_)
      ensures s == Max(old(s), Reach() - Cap())
      ensures found == (old(p) < p)
    {
      hide Span, Valid;
      ghost var t, cap, p0, s0 := text, Cap(), p, s;
      found := false;
      while true
        invariant Valid()
        invariant p0 <= p <= |t| && found == (p0 < p)
        invariant s == Max(s0, p - cap)
        invariant p + Span(t[p..], class_) == p0 + Span(t[p0..], class_)
        decreases |t| - p
      {
        SpanStep(t, p, class_);
        var taken, eof := Take(class_);
        if !taken {
          return;
        }
        found := true;
      }
    }

    /** Skips blanks and starts a new token after them. */
    method SkipWhitespace() returns (eof: bool)
      requires Valid()
      modifies this, buf
      ensures Valid()
      ensures s == p == old(p) + Span(text[old(p)..], IsBlank)
      ensures eof == (p == |text|)
    {
      hide Span, Valid;
      ghost var t, p0 := text, p;
      while true
        invariant Valid()
        invariant p0 <= p <= |t|
        invariant p + Span(t[p..], IsBlank) == p0 + Span(t[p0..], IsBlank)
        decreases |t| - p
      {
        SpanStep(t, p, IsBlank);
        var taken;
        taken, eof := Take(IsBlank);
        if !taken {
          Discard();
          return;
        }
      }
    }

    method ReadUntilWhitespaceOrBreak()
      requires Valid()
      modifies this, buf
      ensures Valid()
      ensures p == old(p) + Span(text[old(p)..], IsWordRune)
      ensures s == Max(old(s), Reach() - Cap())
    {
      var _ := Accept(IsWordRune);
    }
  }
}
