/** Replies that end in an empty list: the counter of that list is never written, and the reply is
    whole nevertheless, because the server clears its buffer first (src/lib/IMdkit/i18nPtHdr.c). */
module FrameBlank {
  import opened FrameTemplate
  import opened FrameCursor
  import opened FrameTokens
  import opened FrameWalk
  import opened FrameRequests
  import opened FrameEncode
  import opened FrameElement
  import opened FrameRead
  import opened FrameRoundTrip

  predicate ZeroCounts(ks: seq<Token>) {
    forall i :: 0 <= i < |ks| ==> (ks[i].CountToken? ==> ks[i].v == 0)
  }

  lemma {:induction false} TrailingConcat(a: seq<Token>, b: seq<Token>)
    requires NoCounts(a) && ZeroCounts(Trailing(b))
    ensures ZeroCounts(Trailing(a + b))
  {
    HasDataConcat(a, b);
    if a == [] {
      assert a + b == b;
    } else {
      assert (a + b)[0] == a[0] && (a + b)[1..] == a[1..] + b;
      if HasData(a + b) {
        TrailingConcat(a[1..], b);
      }
    }
  }

  lemma TrailingOne(k: Token, b: seq<Token>)
    requires ZeroCounts(Trailing(b)) && (k.CountToken? && !HasData(b) ==> k.v == 0)
    ensures ZeroCounts(Trailing([k] + b))
  {
    assert ([k] + b)[1..] == b;
  }

  /** A counter that no datum follows is that of an empty list. */
  lemma {:induction false} TrailingCounts(t: Template, d: seq<Field>, i: int)
    requires Readable(t) && Boundary(t, i)
    ensures ZeroCounts(Trailing(TokensFrom(t, d, i)))
    ensures Pending(t, i) >= 0 && !HasData(TokensFrom(t, d, i)) ==> ElemsOf(FieldAt(d, Pending(t, i))) == []
    decreases |t| - i
  {
    if i == |t| - 1 {
      assert Increment(t, i) == -1;
    } else {
      RecordKind(t, d, i);
      var b := TokensFrom(t, d, Increment(t, i));
      TrailingCounts(t, d, Increment(t, i));
      if t[i].Iter? {
        var es := ElemsOf(FieldAt(d, i));
        ElementsNoCounts(t, i + 1, es);
        HasDataConcat(ElemsTokens(t, i + 1, es), b);
        TrailingConcat(ElemsTokens(t, i + 1, es), b);
        assert ItemTokens(t, d, i) == ElemsTokens(t, i + 1, es);
      } else if t[i].Pointer? {
        var f := FieldsOf(FieldAt(d, i));
        FlatNoCounts(t[i + 1].sub, f, 0);
        TrailingConcat(TokensFrom(t[i + 1].sub, f, 0), b);
        assert ItemTokens(t, d, i) == TokensFrom(t[i + 1].sub, f, 0);
      } else {
        assert ReadableRecord(t, i);
        SimpleTokens(t, d, i);
        TrailingOne(TokenAt(t, d, i), b);
      }
    }
  }

  lemma {:induction false} HoldsConcat(big: bool, area: seq<Byte>, at: int, a: seq<Token>, b: seq<Token>)
    requires Holds(big, area, at, a) && Holds(big, area, at + TokensSize(a), b)
    ensures Holds(big, area, at, a + b)
    decreases |a|
  {
    if a == [] {
      assert a + b == b;
    } else {
      assert (a + b)[0] == a[0] && (a + b)[1..] == a[1..] + b;
      HoldsConcat(big, area, at + TokenSize(a[0]), a[1..], b);
    }
  }

  /** Nothing is written after the last token. */
  lemma {:induction false} StampBeyond(big: bool, area: seq<Byte>, at: nat, ks: seq<Token>, n: nat)
    requires TokensOk(ks) && at + TokensSize(ks) <= n < |area|
    ensures Stamp(big, area, at, ks)[n] == area[n]
    decreases |ks|
  {
    SizeNat(ks);
    if ks != [] {
      assert TokenOk(ks[0]);
      SizeNat(ks[1..]);
      StampBeyond(big, Write(area, at, TokenBytes(big, ks[0])), at + TokenSize(ks[0]), ks[1..], n);
    }
  }

  predicate Blank(area: seq<Byte>, at: nat) {
    forall k :: at <= k < |area| ==> area[k] == 0
  }

  /** Cleared bytes hold paddings and counters of nothing. */
  lemma {:induction false} BlankHolds(big: bool, area: seq<Byte>, at: nat, ks: seq<Token>)
    requires TokensOk(ks) && !HasData(ks) && ZeroCounts(ks) && Blank(area, at) && at + TokensSize(ks) <= |area|
    ensures Holds(big, area, at, ks)
    decreases |ks|
  {
    SizeNat(ks);
    if ks != [] {
      assert TokenOk(ks[0]) && !IsData(ks[0]);
      assert forall i :: 0 <= i < |ks[1..]| ==> ks[1..][i] == ks[i + 1];
      SizeNat(ks[1..]);
      BlankHolds(big, area, at + TokenSize(ks[0]), ks[1..]);
    }
  }

  /** In a cleared buffer a reply holds all of its tokens, whatever its lists, though the last counters are not written. */
  lemma {:induction false} ClearedHolds(t: Template, d: seq<Field>, big: bool, area: seq<Byte>, area': seq<Byte>)
    requires Readable(t) && SizeFrom(t, d, 0) <= |area| && Blank(area, 0)
    requires area' == Stamp(big, area, 0, Written(TokensFrom(t, d, 0)))
    ensures Holds(big, area', 0, TokensFrom(t, d, 0))
  {
    var ks := TokensFrom(t, d, 0);
    var a, b := Written(ks), Trailing(ks);
    StartBoundary(t);
    FrameTokensOk(t, d, 0);
    TokensFromSize(t, d, 0);
    WrittenTrailing(ks);
    TokensSizeConcat(a, b);
    PartsOk(a, b, ks);
    SizeNat(a);
    SizeNat(b);
    StampHolds(big, area, 0, a);
    TrailingCounts(t, d, 0);
    forall k | TokensSize(a) <= k < |area'| ensures area'[k] == 0 {
      StampBeyond(big, area, 0, a, k);
    }
    BlankHolds(big, area', TokensSize(a), b);
    HoldsConcat(big, area', 0, a, b);
  }

  /** A reply as the server makes it: sized, cleared, written; of the computed length, and whole. */
  method WriteReply(t: Template, big: bool, d: seq<Field>) returns (reply: array<Byte>)
    requires TwoLevel(t) && Readable(t)
    ensures fresh(reply) && reply.Length == SizeFrom(t, d, 0) && Holds(big, reply[..], 0, TokensFrom(t, d, 0))
  {
    reply := new Byte[SizeFrom(t, d, 0)](_ => 0);
    ghost var blank := reply[..];
    var w := new FrameMgr(t, big, reply);
    var _ := w.WriteFrame(d);
    ClearedHolds(t, d, big, blank, reply[..]);
  }
}
