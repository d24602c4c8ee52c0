/** Frames written and read back.  The bytes of a frame determine its data: two documents that the same bytes hold carry the
    same numbers, byte strings and list lengths; so a reader that knows only the bytes gets them. */
module FrameWire {
  import opened Sealed
  import opened FrameTemplate
  import opened FrameCursor
  import opened FrameTokens
  import opened FrameEncode
  import opened FrameSetup
  import opened FrameRequests
  import opened FrameElement
  import opened FrameRead
  import opened FrameDecode
  import opened FrameLengths
  import opened FrameRoundTrip
  import opened FrameBlank

  /** Both documents have the same data at the item, and it takes as many bytes. */
  ghost predicate ItemAlike(t: Template, d: seq<Field>, e: seq<Field>, i: int) {
    DataSeen(ItemTokens(t, d, i)) == DataSeen(ItemTokens(t, e, i)) && ItemSize(t, d, i) == ItemSize(t, e, i)
  }

  ghost predicate AlikeTo(t: Template, d: seq<Field>, e: seq<Field>, i: int) {
    forall j :: 0 <= j < i && Boundary(t, j) ==> ItemAlike(t, d, e, j)
  }

  lemma AlikeStep(t: Template, d: seq<Field>, e: seq<Field>, i: int, i': int)
    requires AlikeTo(t, d, e, i) && ItemAlike(t, d, e, i) && i < i' && forall j :: i < j < i' ==> !Boundary(t, j)
    ensures AlikeTo(t, d, e, i')
  {
  }

  /** So paddings are of one length. */
  lemma {:induction false} BackAlike(t: Template, d: seq<Field>, e: seq<Field>, i: int, n: int)
    requires ShapeOk(t) && Boundary(t, i) && AlikeTo(t, d, e, i)
    ensures BackSize(t, d, i, n) == BackSize(t, e, i, n)
    decreases i
  {
    if n > 0 && i > 0 {
      IncrementUndoesDecrement(t, i);
      assert ItemAlike(t, d, e, Decrement(t, i));
      BackAlike(t, d, e, Decrement(t, i), n - 1);
    }
  }

  lemma OneSeen(k: Token)
    ensures DataSeen([k]) == if k.PadToken? then [] else [Seen(k)]
  {
    assert [k][1..] == [];
  }

  lemma OneHeld(big: bool, area: seq<Byte>, at: int, k: Token)
    requires Holds(big, area, at, [k]) && TokenOk(k) && !k.PadToken?
    ensures 0 <= at <= at + TokenSize(k) <= |area| && area[at..at + TokenSize(k)] == TokenBytes(big, k)
    ensures k.BitsToken? || k.CountToken? ==> BytesNum(big, area[at..at + k.w]) == k.v % Limit(k.w)
  {
    if k.BitsToken? || k.CountToken? {
      NumRoundTrip(big, k.w, k.v);
    }
  }

  /** Tokens of one kind and size in one place give the same datum. */
  lemma OneAlike(big: bool, area: seq<Byte>, at: int, k: Token, l: Token)
    requires Holds(big, area, at, [k]) && Holds(big, area, at, [l]) && TokenOk(k) && TokenOk(l)
    requires (k.BitsToken? && l.BitsToken? && k.w == l.w) || (k.BytesToken? && l.BytesToken? && |k.b| == |l.b|)
      || (k.CountToken? && l.CountToken? && k.w == l.w && 0 <= k.v < Limit(k.w) && 0 <= l.v < Limit(l.w)) || (k.PadToken? && l == k)
    ensures DataSeen([k]) == DataSeen([l]) && TokenSize(k) == TokenSize(l)
  {
    OneSeen(k);
    OneSeen(l);
    if !k.PadToken? {
      OneHeld(big, area, at, k);
      OneHeld(big, area, at, l);
      if k.CountToken? {
        SmallMod(k.v, Limit(k.w));
        SmallMod(l.v, Limit(l.w));
      }
    }
  }

  /** A number that arrives alike in both. */
  lemma NumberAlike(t: Template, d: seq<Field>, e: seq<Field>, i: int)
    requires 0 <= i < |t| && t[i].Bits? && ItemAlike(t, d, e, i)
    ensures NumOf(FieldAt(d, i)) % Limit(t[i].width) == NumOf(FieldAt(e, i)) % Limit(t[i].width)
  {
    var k, l := BitsToken(t[i].width, NumOf(FieldAt(d, i))), BitsToken(t[i].width, NumOf(FieldAt(e, i)));
    assert ItemTokens(t, d, i) == [k] && ItemTokens(t, e, i) == [l];
    OneSeen(k);
    OneSeen(l);
    assert [Seen(k)][0] == [Seen(l)][0];
  }

  /** Byte strings are of one length: it is in a number before them. */
  lemma StringAlike(t: Template, back: nat, d: seq<Field>, e: seq<Field>, i: int)
    requires ShapeOk(t) && Told(t, back, d) && Told(t, back, e) && AlikeTo(t, d, e, i) && Boundary(t, i) && t[i].Barray?
    ensures |BytesOf(FieldAt(d, i))| == |BytesOf(FieldAt(e, i))|
  {
    assert Asked(0, (back, d)) && Asked(0, (back, e));
    var k := i - back;
    assert Numbers(t, k, i) && Number(t, k);
    assert Tells(t, back, d, i) && Tells(t, back, e, i);
    assert k > 0 ==> RecordOk(t, k - 1);
    NumberAlike(t, d, e, k);
  }

  lemma HoldsOne(big: bool, area: seq<Byte>, at: int, k: Token, rest: seq<Token>)
    requires Holds(big, area, at, [k] + rest)
    ensures Holds(big, area, at, [k]) && Holds(big, area, at + TokenSize(k), rest)
  {
    assert ([k] + rest)[1..] == rest && [k][1..] == [];
  }

  /** A number, a counter, a byte string or a padding. */
  lemma SimpleAlike(t: Template, back: nat, big: bool, area: seq<Byte>, at: int, d: seq<Field>, e: seq<Field>, i: int, k: Token, l: Token)
    requires CodecOk(t) && Boundary(t, i) && i < |t| - 1 && Simple(t, i) && AlikeTo(t, d, e, i)
    requires Told(t, back, d) && Told(t, back, e) && k == TokenAt(t, d, i) && l == TokenAt(t, e, i)
    requires t[i].Counter? ==> 0 <= k.v < Limit(k.w) && 0 <= l.v < Limit(l.w)
    requires Holds(big, area, at, [k]) && Holds(big, area, at, [l])
    ensures ItemAlike(t, d, e, i) && TokenSize(k) == TokenSize(l) && DataSeen([k]) == DataSeen([l])
  {
    assert RecordCodes(t, i);
    if t[i].Barray? {
      StringAlike(t, back, d, e, i);
    } else if t[i].Padding? {
      BackAlike(t, d, e, i, t[i].number);
    }
    OneAlike(big, area, at, k, l);
    OneItemAlike(t, d, e, i, k, l);
  }

  lemma OneItemAlike(t: Template, d: seq<Field>, e: seq<Field>, i: int, k: Token, l: Token)
    requires CodecOk(t) && i < |t| - 1 && Simple(t, i) && k == TokenAt(t, d, i) && l == TokenAt(t, e, i)
    requires DataSeen([k]) == DataSeen([l]) && TokenSize(k) == TokenSize(l)
    ensures ItemAlike(t, d, e, i)
  {
    OneItem(t, d, i, k);
    OneItem(t, e, i, l);
  }

  lemma OneItem(t: Template, d: seq<Field>, i: int, k: Token)
    requires CodecOk(t) && i < |t| - 1 && Simple(t, i) && k == TokenAt(t, d, i)
    ensures ItemTokens(t, d, i) == [k] && ItemSize(t, d, i) == TokenSize(k)
  {
    ItemTokensSize(t, d, i);
    assert [k][1..] == [];
  }

  lemma {:induction false} FlatAlike(u: Template, back: nat, big: bool, area: seq<Byte>, at: int, f: seq<Field>, g: seq<Field>, i: int)
    requires Flat(u) && 0 <= i < |u| && Boundary(u, i) && AlikeTo(u, f, g, i) && Told(u, back, f) && Told(u, back, g)
    requires Holds(big, area, at, TokensFrom(u, f, i)) && Holds(big, area, at, TokensFrom(u, g, i))
    ensures DataSeen(TokensFrom(u, f, i)) == DataSeen(TokensFrom(u, g, i))
    ensures TokensSize(TokensFrom(u, f, i)) == TokensSize(TokensFrom(u, g, i))
    decreases |u| - i
  {
    if i == |u| - 1 {
      assert Increment(u, i) == -1;
    } else {
      var k := FlatParts(u, big, area, at, f, i);
      var l := FlatParts(u, big, area, at, g, i);
      SimpleAlike(u, back, big, area, at, f, g, i, k, l);
      FlatStep(u, f, g, i);
      FlatAlike(u, back, big, area, at + TokenSize(k), f, g, i + 1);
      FlatJoin(k, TokensFrom(u, f, i + 1), l, TokensFrom(u, g, i + 1));
    }
  }

  lemma FlatParts(u: Template, big: bool, area: seq<Byte>, at: int, f: seq<Field>, i: int) returns (k: Token)
    requires Flat(u) && 0 <= i < |u| - 1 && Holds(big, area, at, TokensFrom(u, f, i))
    ensures Simple(u, i) && !u[i].Counter? && k == TokenAt(u, f, i) && TokensFrom(u, f, i) == [k] + TokensFrom(u, f, i + 1)
    ensures Holds(big, area, at, [k]) && Holds(big, area, at + TokenSize(k), TokensFrom(u, f, i + 1))
  {
    FlatSimple(u, i);
    SimpleTokens(u, f, i);
    k := TokenAt(u, f, i);
    HoldsOne(big, area, at, k, TokensFrom(u, f, i + 1));
  }

  lemma FlatJoin(k: Token, x: seq<Token>, l: Token, y: seq<Token>)
    requires DataSeen([k]) == DataSeen([l]) && TokenSize(k) == TokenSize(l) && DataSeen(x) == DataSeen(y) && TokensSize(x) == TokensSize(y)
    ensures DataSeen([k] + x) == DataSeen([l] + y) && TokensSize([k] + x) == TokensSize([l] + y)
  {
    BothSeen([k], x, [l], y);
    assert ([k] + x)[1..] == x && ([l] + y)[1..] == y;
  }

  lemma FlatStep(u: Template, f: seq<Field>, g: seq<Field>, i: int)
    requires Flat(u) && 0 <= i < |u| - 1 && AlikeTo(u, f, g, i) && ItemAlike(u, f, g, i)
    ensures AlikeTo(u, f, g, i + 1) && Boundary(u, i + 1)
  {
    FlatSimple(u, i);
    assert RecordOk(u, i);
    AlikeStep(u, f, g, i, i + 1);
  }

  /** One element, number or flat frame. */
  lemma ElementAlike(t: Template, i: int, back: nat, big: bool, area: seq<Byte>, at: int, x: Field, y: Field)
    requires RepeatsOk(t, i)
    requires Points(t, i) ==> Told(t[i + 1].sub, back, FieldsOf(x)) && Told(t[i + 1].sub, back, FieldsOf(y))
    requires Holds(big, area, at, ElemTokens(t, i, x)) && Holds(big, area, at, ElemTokens(t, i, y))
    ensures DataSeen(ElemTokens(t, i, x)) == DataSeen(ElemTokens(t, i, y))
    ensures TokensSize(ElemTokens(t, i, x)) == TokensSize(ElemTokens(t, i, y)) > 0
  {
    assert RecordCodes(t, i);
    if Points(t, i) {
      StartBoundary(t[i + 1].sub);
      FlatAlike(t[i + 1].sub, back, big, area, at, FieldsOf(x), FieldsOf(y), 0);
    } else {
      var k, l := BitsToken(t[i].width, NumOf(x)), BitsToken(t[i].width, NumOf(y));
      OneAlike(big, area, at, k, l);
      assert [k][1..] == [] && [l][1..] == [];
    }
    ElementTakesBytes(t, i, x, []);
    assert ElemTokens(t, i, x) + ElemsTokens(t, i, []) == ElemTokens(t, i, x);
  }

  ghost predicate ElementsTold(t: Template, i: int, back: nat, es: seq<Field>) {
    forall n: int :: Asked(n, (back, es)) ==>
      Points(t, i) ==> forall k :: 0 <= k < |es| ==> Told(t[i + 1].sub, back, FieldsOf(es[k]))
  }

  lemma ToldParts(t: Template, i: int, back: nat, es: seq<Field>)
    requires ElementsTold(t, i, back, es) && es != []
    ensures Points(t, i) ==> Told(t[i + 1].sub, back, FieldsOf(es[0]))
    ensures ElementsTold(t, i, back, es[1..])
  {
    assert Asked(0, (back, es));
  }

  lemma ElementParts(t: Template, i: int, big: bool, area: seq<Byte>, at: int, es: seq<Field>, a: seq<Token>, x: seq<Token>)
    requires Holds(big, area, at, ElemsTokens(t, i, es)) && es != [] && a == ElemTokens(t, i, es[0]) && x == ElemsTokens(t, i, es[1..])
    ensures ElemsTokens(t, i, es) == a + x && Holds(big, area, at, a) && Holds(big, area, at + TokensSize(a), x)
  {
    HoldsParts(big, area, at, a, x);
  }

  lemma NoElements(t: Template, i: int, es: seq<Field>)
    requires RepeatsOk(t, i)
    ensures es != [] ==> TokensSize(ElemsTokens(t, i, es)) > 0
    ensures es == [] ==> ElemsTokens(t, i, es) == []
  {
    if es != [] {
      ElementTakesBytes(t, i, es[0], es[1..]);
    }
  }

  /** Elements that fill the same bytes are as many. */
  lemma BothEmpty(t: Template, i: int, es: seq<Field>, fs: seq<Field>)
    requires RepeatsOk(t, i) && TokensSize(ElemsTokens(t, i, es)) == TokensSize(ElemsTokens(t, i, fs))
    ensures es == [] <==> fs == []
  {
    NoElements(t, i, es);
    NoElements(t, i, fs);
  }

  lemma {:induction false} ElementsAlike(t: Template, i: int, back: nat, big: bool, area: seq<Byte>, at: int, es: seq<Field>, fs: seq<Field>)
    requires RepeatsOk(t, i) && ElementsTold(t, i, back, es) && ElementsTold(t, i, back, fs)
    requires Holds(big, area, at, ElemsTokens(t, i, es)) && Holds(big, area, at, ElemsTokens(t, i, fs))
    requires TokensSize(ElemsTokens(t, i, es)) == TokensSize(ElemsTokens(t, i, fs))
    ensures |es| == |fs| && DataSeen(ElemsTokens(t, i, es)) == DataSeen(ElemsTokens(t, i, fs))
    decreases |es|
  {
    BothEmpty(t, i, es, fs);
    if es != [] {
      var a, b, x, y := ElemTokens(t, i, es[0]), ElemTokens(t, i, fs[0]), ElemsTokens(t, i, es[1..]), ElemsTokens(t, i, fs[1..]);
      FirstsAlike(t, i, back, big, area, at, at + TokensSize(a), es, fs, a, b, x, y);
      ElementsAlike(t, i, back, big, area, at + TokensSize(a), es[1..], fs[1..]);
      BothSeen(a, x, b, y);
    }
  }

  /** The first elements take the same bytes, and the others fill the rest. */
  lemma {:induction false} FirstsAlike(t: Template, i: int, back: nat, big: bool, area: seq<Byte>, at: int, at': int, es: seq<Field>, fs: seq<Field>,
                    a: seq<Token>, b: seq<Token>, x: seq<Token>, y: seq<Token>)
    requires RepeatsOk(t, i) && ElementsTold(t, i, back, es) && ElementsTold(t, i, back, fs)
    requires Holds(big, area, at, ElemsTokens(t, i, es)) && Holds(big, area, at, ElemsTokens(t, i, fs))
    requires TokensSize(ElemsTokens(t, i, es)) == TokensSize(ElemsTokens(t, i, fs)) && es != [] && fs != []
    requires a == ElemTokens(t, i, es[0]) && x == ElemsTokens(t, i, es[1..]) && at' == at + TokensSize(a)
    requires b == ElemTokens(t, i, fs[0]) && y == ElemsTokens(t, i, fs[1..])
    ensures ElementsTold(t, i, back, es[1..]) && ElementsTold(t, i, back, fs[1..])
    ensures Holds(big, area, at', x) && Holds(big, area, at', y)
    ensures ElemsTokens(t, i, es) == a + x && ElemsTokens(t, i, fs) == b + y
    ensures DataSeen(a) == DataSeen(b) && TokensSize(x) == TokensSize(y)
  {
    FirstParts(t, i, back, big, area, at, es, a, x);
    FirstParts(t, i, back, big, area, at, fs, b, y);
    assert DataSeen(a) == DataSeen(b) && TokensSize(a) == TokensSize(b) by {
      ElementAlike(t, i, back, big, area, at, es[0], fs[0]);
    }
    assert TokensSize(x) == TokensSize(y) by {
      RestsAlike(a, x, b, y);
    }
  }

  lemma FirstParts(t: Template, i: int, back: nat, big: bool, area: seq<Byte>, at: int, es: seq<Field>, a: seq<Token>, x: seq<Token>)
    requires ElementsTold(t, i, back, es) && Holds(big, area, at, ElemsTokens(t, i, es)) && es != []
    requires a == ElemTokens(t, i, es[0]) && x == ElemsTokens(t, i, es[1..])
    ensures Points(t, i) ==> Told(t[i + 1].sub, back, FieldsOf(es[0]))
    ensures ElementsTold(t, i, back, es[1..]) && ElemsTokens(t, i, es) == a + x
    ensures Holds(big, area, at, a) && Holds(big, area, at + TokensSize(a), x)
  {
    ElementParts(t, i, big, area, at, es, a, x);
    ToldParts(t, i, back, es);
  }

  lemma RestsAlike(a: seq<Token>, x: seq<Token>, b: seq<Token>, y: seq<Token>)
    requires TokensSize(a) == TokensSize(b) && TokensSize(a + x) == TokensSize(b + y)
    ensures TokensSize(x) == TokensSize(y)
  {
    TokensSizeConcat(a, x);
    TokensSizeConcat(b, y);
  }

  lemma BothSeen(a: seq<Token>, x: seq<Token>, b: seq<Token>, y: seq<Token>)
    requires DataSeen(a) == DataSeen(b) && DataSeen(x) == DataSeen(y)
    ensures DataSeen(a + x) == DataSeen(b + y)
  {
    DataSeenConcat(a, x);
    DataSeenConcat(b, y);
  }

  lemma {:induction false} HoldsParts(big: bool, area: seq<Byte>, at: int, a: seq<Token>, b: seq<Token>)
    requires Holds(big, area, at, a + b)
    ensures Holds(big, area, at, a) && Holds(big, area, at + TokensSize(a), b)
    decreases |a|
  {
    if a == [] {
      assert a + b == b;
    } else {
      assert (a + b)[0] == a[0] && (a + b)[1..] == a[1..] + b;
      HoldsParts(big, area, at + TokenSize(a[0]), a[1..], b);
    }
  }

  /** Lists are as long in bytes as their counters say. */
  lemma CountAlike(t: Template, d: seq<Field>, e: seq<Field>, p: int)
    requires Readable(t) && Boundary(t, p) && p < |t| - 1 && t[p].Iter? && AlikeTo(t, d, e, p)
    ensures ElemsSize(t, p + 1, ElemsOf(FieldAt(d, p))) == ElemsSize(t, p + 1, ElemsOf(FieldAt(e, p)))
  {
    assert ReadableRecord(t, p);
    var c := CounterOf(t, p, p - 1);
    var k, l := CountToken(t[c].width, CountOf(t, d, c)), CountToken(t[c].width, CountOf(t, e, c));
    assert ItemAlike(t, d, e, c) && ItemTokens(t, d, c) == [k] && ItemTokens(t, e, c) == [l];
    OneSeen(k);
    OneSeen(l);
    assert [Seen(k)][0] == [Seen(l)][0];
  }

  lemma ListAlike(t: Template, back: nat, big: bool, area: seq<Byte>, at: int, d: seq<Field>, e: seq<Field>, i: int)
    requires Readable(t) && Boundary(t, i) && i < |t| - 1 && t[i].Iter? && AlikeTo(t, d, e, i) && Told(t, back, d) && Told(t, back, e)
    requires Holds(big, area, at, ItemTokens(t, d, i)) && Holds(big, area, at, ItemTokens(t, e, i))
    ensures ItemAlike(t, d, e, i) && |ElemsOf(FieldAt(d, i))| == |ElemsOf(FieldAt(e, i))|
  {
    var es, fs := ElemsOf(FieldAt(d, i)), ElemsOf(FieldAt(e, i));
    assert ReadableRecord(t, i);
    CountAlike(t, d, e, i);
    ElemsTokensSize(t, i + 1, es);
    ElemsTokensSize(t, i + 1, fs);
    AllElementsTold(t, back, d, i);
    AllElementsTold(t, back, e, i);
    ElementsAlike(t, i + 1, back, big, area, at, es, fs);
  }

  lemma AllElementsTold(t: Template, back: nat, d: seq<Field>, i: int)
    requires Told(t, back, d) && Boundary(t, i) && t[i].Iter?
    ensures ElementsTold(t, i + 1, back, ElemsOf(FieldAt(d, i)))
  {
    forall k | 0 <= k < |ElemsOf(FieldAt(d, i))|
      ensures Points(t, i + 1) ==> Told(t[i + 2].sub, back, FieldsOf(ElemsOf(FieldAt(d, i))[k]))
    {
      ElementTold(t, back, d, i, k);
    }
  }

  lemma InnerAlike(t: Template, back: nat, big: bool, area: seq<Byte>, at: int, d: seq<Field>, e: seq<Field>, i: int)
    requires Readable(t) && Boundary(t, i) && i < |t| - 1 && t[i].Pointer? && Told(t, back, d) && Told(t, back, e)
    requires Holds(big, area, at, ItemTokens(t, d, i)) && Holds(big, area, at, ItemTokens(t, e, i))
    ensures ItemAlike(t, d, e, i)
  {
    FrameHere(t, i);
    InnerTold(t, back, d, i);
    InnerTold(t, back, e, i);
    var u, f, g := t[i + 1].sub, FieldsOf(FieldAt(d, i)), FieldsOf(FieldAt(e, i));
    assert ItemTokens(t, d, i) == TokensFrom(u, f, 0) && ItemTokens(t, e, i) == TokensFrom(u, g, 0);
    StartBoundary(u);
    FlatAlike(u, back, big, area, at, f, g, 0);
    ItemTokensSize(t, d, i);
    ItemTokensSize(t, e, i);
  }

  /** Any item: its counters hold what they count. */
  lemma ItemsAlike(t: Template, back: nat, big: bool, area: seq<Byte>, at: int, d: seq<Field>, e: seq<Field>, i: int)
    requires Readable(t) && Boundary(t, i) && i < |t| - 1 && AlikeTo(t, d, e, i) && Told(t, back, d) && Told(t, back, e)
    requires Sendable(t, d) && Sendable(t, e)
    requires Holds(big, area, at, ItemTokens(t, d, i)) && Holds(big, area, at, ItemTokens(t, e, i))
    ensures ItemAlike(t, d, e, i) && (t[i].Iter? ==> |ElemsOf(FieldAt(d, i))| == |ElemsOf(FieldAt(e, i))|)
  {
    assert ReadableRecord(t, i);
    if t[i].Iter? {
      ListAlike(t, back, big, area, at, d, e, i);
    } else if t[i].Pointer? {
      InnerAlike(t, back, big, area, at, d, e, i);
    } else {
      var k, l := TokenAt(t, d, i), TokenAt(t, e, i);
      assert ItemTokens(t, d, i) == [k] && ItemTokens(t, e, i) == [l];
      FrameTokensOk(t, d, i);
      FrameTokensOk(t, e, i);
      SimpleTokens(t, d, i);
      SimpleTokens(t, e, i);
      assert TokenOk(k) && TokenOk(l);
      SimpleAlike(t, back, big, area, at, d, e, i, k, l);
    }
  }

  lemma {:induction false} FrameAlike(t: Template, back: nat, big: bool, area: seq<Byte>, at: int, d: seq<Field>, e: seq<Field>, i: int)
    requires Readable(t) && Boundary(t, i) && AlikeTo(t, d, e, i) && Told(t, back, d) && Told(t, back, e)
    requires Sendable(t, d) && Sendable(t, e)
    requires Holds(big, area, at, TokensFrom(t, d, i)) && Holds(big, area, at, TokensFrom(t, e, i))
    ensures DataSeen(TokensFrom(t, d, i)) == DataSeen(TokensFrom(t, e, i)) && Lengths(t, d, i) == Lengths(t, e, i)
    decreases |t| - i
  {
    if i == |t| - 1 {
      assert Increment(t, i) == -1;
    } else {
      var i' := Increment(t, i);
      var a, b, x, y := ItemTokens(t, d, i), ItemTokens(t, e, i), TokensFrom(t, d, i'), TokensFrom(t, e, i');
      DecrementUndoesIncrement(t, i);
      FrameParts(t, big, area, at, d, i, i');
      FrameParts(t, big, area, at, e, i, i');
      ItemsAlike(t, back, big, area, at, d, e, i);
      NextAlike(t, d, e, i, i');
      FrameAlike(t, back, big, area, at + ItemSize(t, d, i), d, e, i');
      BothSeen(a, x, b, y);
      LengthsStep(t, d, e, i, i');
    }
  }

  lemma FrameParts(t: Template, big: bool, area: seq<Byte>, at: int, d: seq<Field>, i: int, i': int)
    requires CodecOk(t) && 0 <= i < |t| - 1 && i < i' == Increment(t, i) && Holds(big, area, at, TokensFrom(t, d, i))
    ensures Holds(big, area, at, ItemTokens(t, d, i)) && Holds(big, area, at + ItemSize(t, d, i), TokensFrom(t, d, i'))
  {
    HoldsParts(big, area, at, ItemTokens(t, d, i), TokensFrom(t, d, i'));
    ItemTokensSize(t, d, i);
  }

  lemma NextAlike(t: Template, d: seq<Field>, e: seq<Field>, i: int, i': int)
    requires CodecOk(t) && Boundary(t, i) && i < |t| - 1 && i' == Increment(t, i) && i < i' < |t|
    requires AlikeTo(t, d, e, i) && ItemAlike(t, d, e, i)
    ensures AlikeTo(t, d, e, i')
  {
    forall j | i < j < i' ensures !Boundary(t, j) {
      if Boundary(t, j) {
        NoneBetween(t, i, j);
      }
    }
    AlikeStep(t, d, e, i, i');
  }

  lemma LengthsStep(t: Template, d: seq<Field>, e: seq<Field>, i: int, i': int)
    requires 0 <= i < i' == Increment(t, i) && i < |t| && Lengths(t, d, i') == Lengths(t, e, i')
    requires t[i].Iter? ==> |ElemsOf(FieldAt(d, i))| == |ElemsOf(FieldAt(e, i))|
    ensures Lengths(t, d, i) == Lengths(t, e, i)
  {
  }

  /** A number stands before every byte string. */
  lemma NumberBefore(t: Template)
    requires Readable(t)
    ensures Lengthed(t, 1)
  {
    forall i | 0 <= i < |t| && t[i].Barray? ensures Numbers(t, i - 1, i) {
      assert ReadableRecord(t, i) && Number(t, i - 1);
    }
    forall i | 0 <= i < |t| && t[i].PtrItem? ensures Lengthed(t[i].sub, 1) {
      assert RecordOk(t, 0) && RecordOk(t, i - 1) && ReadableRecord(t, i - 1);
      if i > 1 && t[i - 2].Iter? {
        assert ReadableRecord(t, i - 2);
      }
      ElementLengthed(t[i].sub);
    }
  }

  lemma ElementLengthed(u: Template)
    requires ElementOk(u)
    ensures Lengthed(u, 1)
  {
    forall i | 0 <= i < |u| && u[i].Barray? ensures Numbers(u, i - 1, i) {
      assert Number(u, i - 1);
    }
  }

  /** The bytes hold document d: its lists have elements, its counters hold their lengths, and the numbers before its
      byte strings tell the lengths of those. */
  ghost predicate Carries(t: Template, big: bool, area: seq<Byte>, back: nat, d: seq<Field>) {
    Sendable(t, d) && Told(t, back, d) && Holds(big, area, 0, TokensFrom(t, d, 0))
  }

  /** What two documents in the same bytes carry is the same. */
  lemma BytesDetermine(t: Template, big: bool, area: seq<Byte>, back: nat, d: seq<Field>, e: seq<Field>)
    requires Readable(t) && Carries(t, big, area, back, d) && Carries(t, big, area, back, e)
    ensures DataSeen(TokensFrom(t, d, 0)) == DataSeen(TokensFrom(t, e, 0)) && Lengths(t, d, 0) == Lengths(t, e, 0)
  {
    StartBoundary(t);
    FrameAlike(t, back, big, area, 0, d, e, 0);
  }

  /** The main property: from the template, the bytes and the place of the lengths alone the reader gets the data of any
      document that the bytes hold, and goes round each list as often as it has elements. */
  method Receive(t: Template, big: bool, area: seq<Byte>, back: nat) returns (got: seq<Datum>, loops: seq<nat>)
    requires Readable(t) && exists d :: Carries(t, big, area, back, d)
    ensures forall d :: Carries(t, big, area, back, d) ==> got == DataSeen(TokensFrom(t, d, 0)) && loops == Lengths(t, d, 0)
  {
    ghost var e :| Carries(t, big, area, back, e);
    got, loops := ReadFrame(t, big, area, back, e);
    forall d | Carries(t, big, area, back, d) ensures got == DataSeen(TokensFrom(t, d, 0)) && loops == Lengths(t, d, 0) {
      BytesDetermine(t, big, area, back, d, e);
    }
  }

  /** A document written by PutToken in either byte order, and read back from the bytes by GetToken. */
  method WriteAndRead(t: Template, big: bool, back: nat, d: seq<Field>) returns (area: array<Byte>, got: seq<Datum>, loops: seq<nat>)
    requires TwoLevel(t) && Readable(t) && Sendable(t, d) && Told(t, back, d)
    ensures fresh(area) && area.Length == SizeFrom(t, d, 0) && Carries(t, big, area[..], back, d)
    ensures got == DataSeen(TokensFrom(t, d, 0)) && loops == Lengths(t, d, 0)
  {
    area := WriteReply(t, big, d);
    assert Carries(t, big, area[..], back, d);
    got, loops := Receive(t, big, area[..], back);
  }
}
