/** The stream through which the parser reads tokens: it can take tokens back, and keeps the first
    error for ever. */
module Streams {
  import opened Options
  import opened Tokens
  import opened Syntax
  import opened ParseSpec

  const STREAM_SIZE := 64

  function Reversed(ts: seq<Token>): (r: seq<Token>)
    ensures |r| == |ts|
  {
    if ts == [] then [] else [ts[|ts| - 1]] + Reversed(ts[..|ts| - 1])
  }

  predicate NoErrors(ts: seq<Token>) {
    forall k :: 0 <= k < |ts| ==> !ts[k].typ.ERR?
  }

  class TokenStream {
    var ch: seq<Token> // what the channel has yet to deliver
    const buf: array<Token>
    var idx: nat
    var err: Option<Token>

    // The most slots that were ever in use.
    ghost var most: nat

    ghost predicate Valid()
      reads this, buf
    {
      && buf.Length == STREAM_SIZE && idx <= STREAM_SIZE && idx <= most
      && (err.Some? ==> err.value.typ.ERR?)
      && (err.None? ==> NoErrors(buf[..idx]))
    }

    /** The tokens ahead: those pushed back, the last one first, then those in the channel. */
    ghost function Content(): (ts: seq<Token>)
      requires Valid()
      reads this, buf
    {
      if err.Some? then [err.value] else Reversed(buf[..idx]) + ch
    }

    ghost function Ahead(): (xs: seq<Shape>)
      requires Valid()
      reads this, buf
      ensures |xs| == |Content()|
    {
      Shapes(Content())
    }

    constructor (tokens: seq<Token>)
      ensures Valid() && fresh(buf) && Content() == tokens
      ensures idx == 0 && err.None? && most == 0
    {
      ch, idx, err, most := tokens, 0, None, 0;
      buf := new Token[STREAM_SIZE](_ => Token(EOF, "", 0));
      new;
      assert buf[..idx] == [];
    }

    method Next() returns (t: Token)
      requires Valid()
      modifies this
      ensures Valid() && most == old(most)
      ensures t == if old(Content()) == [] then Token(EOF, "", 0) else old(Content())[0]
      ensures Content() ==
        if old(Content()) == [] then [] else if t.typ.ERR? then [t] else old(Content())[1..]
      ensures err.Some? == t.typ.ERR? && (old(err.Some?) ==> err.Some?)
      ensures idx == if old(err.None?) && 0 < old(idx) then old(idx) - 1 else old(idx)
    {
      hide Reversed;
      if err.Some? {
        return err.value;
      }
      if 0 < idx {
        PopReversed(buf[..idx], ch);
        assert buf[..idx][..idx - 1] == buf[..idx - 1];
        idx := idx - 1;
        return buf[idx];
      }
      NothingReversed(buf[..idx], ch);
      if ch == [] {
        return Token(EOF, "", 0);
      }
      t := ch[0];
      ch := ch[1..];
      if t.typ.ERR? {
        err := Some(t);
      }
    }

    /** Takes tokens back; the last one of them is read first. The buffer must have room for them. */
    method PushBack(tokens: seq<Token>)
      requires Valid() && idx + |tokens| <= STREAM_SIZE
      requires err.None? ==> NoErrors(tokens)
      modifies `idx, `most, buf
      ensures Valid() && idx == old(idx) + |tokens|
      ensures most == if old(most) < idx then idx else old(most)
      ensures Content() == if err.Some? then old(Content()) else Reversed(tokens) + old(Content())
    {
      hide Reversed, NoErrors;
      ghost var front, i0 := buf[..idx], idx;
      var k := 0;
      while k < |tokens|
        invariant 0 <= k <= |tokens| && idx == i0 + k && most == old(most)
        invariant buf[..idx] == front + tokens[..k]
      {
        buf[idx] := tokens[k];
        idx := idx + 1;
        k := k + 1;
      }
      if most < idx {
        most := idx;
      }
      assert tokens[..k] == tokens;
      ReversedConcat(front, tokens);
      NoErrorsConcat(front, tokens);
      assert Reversed(tokens) + Reversed(front) + ch == Reversed(tokens) + (Reversed(front) + ch);
    }

    method Peek() returns (t: Token)
      requires Valid() && idx < STREAM_SIZE
      modifies this, buf
      ensures Valid()
      ensures t == if old(Content()) == [] then Token(EOF, "", 0) else old(Content())[0]
      ensures Content() ==
        if old(Content()) == [] then [t] else if t.typ.ERR? then [t] else old(Content())
      ensures err.Some? == t.typ.ERR?
      ensures idx == if old(err.None?) && 0 < old(idx) then old(idx) else old(idx) + 1
      ensures most == if old(most) < idx then idx else old(most)
    {
      hide TokenStream.Valid, TokenStream.Content, Reversed;
      t := Next();
      ReversedOne(t);
      PushBack([t]);
    }
  }

  lemma {:induction false} PopReversed(ts: seq<Token>, rest: seq<Token>)
    requires ts != []
    ensures Reversed(ts) + rest == [ts[|ts| - 1]] + (Reversed(ts[..|ts| - 1]) + rest)
  {
  }

  lemma {:induction false} NothingReversed(ts: seq<Token>, rest: seq<Token>)
    requires ts == []
    ensures Reversed(ts) + rest == rest
  {
  }

  lemma {:induction false} ReversedOne(t: Token)
    ensures Reversed([t]) == [t]
  {
  }

  lemma {:induction false} NoErrorsConcat(ts: seq<Token>, us: seq<Token>)
    ensures NoErrors(ts + us) <==> NoErrors(ts) && NoErrors(us)
  {
    if NoErrors(ts + us) {
      assert forall k :: 0 <= k < |ts| ==> ts[k] == (ts + us)[k];
      assert forall k :: 0 <= k < |us| ==> us[k] == (ts + us)[|ts| + k];
    }
  }

  lemma {:induction false} ReversedConcat(a: seq<Token>, b: seq<Token>)
    ensures Reversed(a + b) == Reversed(b) + Reversed(a)
  {
    if b == [] {
      assert a + b == a && Reversed(b) + Reversed(a) == Reversed(a);
    } else {
      var n := |b| - 1;
      ReversedConcat(a, b[..n]);
      assert (a + b)[..|a + b| - 1] == a + b[..n];
      assert Reversed(b) + Reversed(a) == [b[n]] + (Reversed(b[..n]) + Reversed(a));
    }
  }
}
