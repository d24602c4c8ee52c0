/** Frames whose last data are those of a list: they end in data just when that list has elements. */
module FrameTail {
  import opened FrameTemplate
  import opened FrameTokens
  import opened FrameSetup
  import opened FrameRequests
  import opened FrameEncode
  import opened FrameElement
  import opened FrameRead
  import opened FrameRoundTrip

  /** Only paddings come after the list at record p. */
  predicate LastList(t: Template, p: int) {
    Boundary(t, p) && p < |t| - 1 && t[p].Iter? && forall j :: 0 <= j < |t| - 1 && Increment(t, p) <= j ==> t[j].Padding?
  }

  lemma {:induction false} PadsToEnd(t: Template, d: seq<Field>, i: int)
    requires CodecOk(t) && 0 <= i < |t| && forall j :: i <= j < |t| - 1 ==> t[j].Padding?
    ensures NoCounts(TokensFrom(t, d, i)) && !HasData(TokensFrom(t, d, i))
    decreases |t| - i
  {
    if i == |t| - 1 {
      assert Increment(t, i) == -1;
    } else {
      SimpleTokens(t, d, i);
      PadsToEnd(t, d, i + 1);
    }
  }

  /** From the list on: no counter, and data if it has elements. */
  lemma {:induction false} FromList(t: Template, d: seq<Field>, p: int)
    requires Readable(t) && LastList(t, p)
    ensures NoCounts(TokensFrom(t, d, p)) && (HasData(TokensFrom(t, d, p)) <==> ElemsOf(FieldAt(d, p)) != [])
  {
    var es := ElemsOf(FieldAt(d, p));
    var a, b := ElemsTokens(t, p + 1, es), TokensFrom(t, d, Increment(t, p));
    assert ReadableRecord(t, p) && RecordOk(t, p);
    DecrementUndoesIncrement(t, p);
    PadsToEnd(t, d, Increment(t, p));
    ElementsNoCounts(t, p + 1, es);
    HasDataConcat(a, b);
    assert ItemTokens(t, d, p) == a;
    assert TokensFrom(t, d, p) == a + b;
  }

  /** The tokens from record i on end in those from record p on. */
  lemma {:induction false} EndsIn(t: Template, d: seq<Field>, i: int, p: int) returns (a: seq<Token>)
    requires CodecOk(t) && Boundary(t, i) && Boundary(t, p) && i <= p < |t| - 1
    ensures TokensFrom(t, d, i) == a + TokensFrom(t, d, p)
    decreases p - i
  {
    a := [];
    if i < p {
      NoneBetween(t, i, p);
      DecrementUndoesIncrement(t, i);
      var b := EndsIn(t, d, Increment(t, i), p);
      a := ItemTokens(t, d, i) + b;
    }
  }

  lemma {:induction false} TailOfData(a: seq<Token>, b: seq<Token>)
    requires HasData(b)
    ensures Trailing(a + b) == Trailing(b)
  {
    HasDataConcat(a, b);
    if a == [] {
      assert a + b == b;
    } else {
      assert (a + b)[1..] == a[1..] + b;
      TailOfData(a[1..], b);
    }
  }

  lemma {:induction false} TailOfNone(a: seq<Token>, b: seq<Token>)
    requires !HasData(b) && b != [] && !b[0].PadToken?
    ensures !EndsInData(a + b)
  {
    HasDataConcat(a, b);
    if a == [] {
      assert a + b == b && Trailing(b)[0] == b[0];
    } else if !HasData(a + b) {
      assert Trailing(a + b)[|a|] == b[0];
    } else {
      TailOfNone(a[1..], b);
      assert (a + b)[1..] == a[1..] + b;
      assert Trailing(a + b) == Trailing(a[1..] + b);
    }
  }

  lemma {:induction false} NoData(ks: seq<Token>, i: int)
    requires !HasData(ks) && 0 <= i < |ks|
    ensures !IsData(ks[i])
  {
    if i > 0 {
      NoData(ks[1..], i - 1);
    }
  }

  lemma {:induction false} TailOfNoCounts(ks: seq<Token>)
    requires NoCounts(ks)
    ensures EndsInData(ks)
  {
    WrittenTrailing(ks);
    forall i | 0 <= i < |Trailing(ks)| ensures Trailing(ks)[i].PadToken? {
      assert Trailing(ks)[i] == ks[|Written(ks)| + i];
      NoData(Trailing(ks), i);
    }
  }

  /** Between a counter and its list are paddings. */
  lemma {:induction false} NoDataBetween(t: Template, d: seq<Field>, j: int, p: int)
    requires Pending(t, j) == p >= 0
    ensures HasData(TokensFrom(t, d, j)) == HasData(TokensFrom(t, d, p))
    decreases |t| - j
  {
    if !t[j].Iter? {
      SimpleTokens(t, d, j);
      NoDataBetween(t, d, j + 1, p);
    }
  }

  /** The main property. */
  lemma {:induction false} EndsInList(t: Template, d: seq<Field>, p: int)
    requires Readable(t) && LastList(t, p)
    ensures EndsInData(TokensFrom(t, d, 0)) <==> ElemsOf(FieldAt(d, p)) != []
  {
    StartBoundary(t);
    FromList(t, d, p);
    if ElemsOf(FieldAt(d, p)) != [] {
      var a := EndsIn(t, d, 0, p);
      TailOfData(a, TokensFrom(t, d, p));
      TailOfNoCounts(TokensFrom(t, d, p));
    } else {
      assert ReadableRecord(t, p);
      var c := CounterOf(t, p, p - 1);
      assert ReadableRecord(t, c);
      NoDataBetween(t, d, c + 1, p);
      SimpleTokens(t, d, c);
      var a := EndsIn(t, d, 0, c);
      TailOfNone(a, TokensFrom(t, d, c));
    }
  }
}
