/** What a frame is as a row of tokens, and that the cursor reports just that row. */
module FrameTokens {
  import opened FrameTemplate
  import opened FrameCursor

  predicate RecordCodes(t: Template, i: int)
    requires 0 <= i < |t| - 1
  {
    match t[i]
    case Bits(w) => w == 1 || w == 2 || w == 4
    case Counter(w, _, offset) => (w == 1 || w == 2 || w == 4) && 0 <= i + offset < |t| && t[i + offset].Iter?
    case Padding(unit, _) => unit > 0
    case Iter => !t[i + 1].Iter?
    case _ => true
  }

  /** The templates the interpreter can code: well shaped, every counter speaks of a list,
      no list of lists without a frame between them. */
  predicate CodecOk(t: Template)
    decreases t
  {
    && ShapeOk(t)
    && (forall i :: 0 <= i < |t| - 1 ==> RecordCodes(t, i))
    && (forall i :: 0 <= i < |t| ==> (t[i].PtrItem? ==> CodecOk(t[i].sub)))
  }

  lemma PointsAt(t: Template, i: int)
    requires CodecOk(t) && 0 <= i < |t| && t[i].Pointer?
    ensures Points(t, i) && CodecOk(t[i + 1].sub)
  {
    assert RecordOk(t, i);
  }

  datatype Token = BitsToken(w: int, v: int) | CountToken(w: int, v: int) | BytesToken(b: seq<Byte>) | PadToken(n: int)

  function NumOf(f: Field): int {
    if f.Num? then f.v else 0
  }

  function ElemTokens(t: Template, i: int, f: Field): seq<Token>
    decreases t, 1
  {
    if !(0 <= i < |t|) then []
    else match t[i]
      case Bits(w) => [BitsToken(w, NumOf(f))]
      case Barray => [BytesToken(BytesOf(f))]
      case Pointer => if Points(t, i) then TokensFrom(t[i + 1].sub, FieldsOf(f), 0) else []
      case _ => []
  }

  function ElemsTokens(t: Template, i: int, es: seq<Field>): seq<Token>
    decreases t, 2, |es|
  {
    if es == [] then [] else ElemTokens(t, i, es[0]) + ElemsTokens(t, i, es[1..])
  }

  /** What the counter at record i holds: the bytes or the elements of its list. */
  function CountOf(t: Template, d: seq<Field>, i: int): int
    requires 0 <= i < |t| && t[i].Counter?
  {
    var at := i + t[i].offset;
    var es := ElemsOf(FieldAt(d, at));
    if t[i].isByteLen then ElemsSize(t, at + 1, es) else |es|
  }

  function ItemTokens(t: Template, d: seq<Field>, i: int): seq<Token>
    decreases t, 3
  {
    if !(0 <= i < |t|) then []
    else match t[i]
      case Counter(w, _, _) => [CountToken(w, CountOf(t, d, i))]
      case Padding(unit, n) => [PadToken(PadLen(unit, BackSize(t, d, i, n)))]
      case Iter => ElemsTokens(t, i + 1, ElemsOf(FieldAt(d, i)))
      case _ => ElemTokens(t, i, FieldAt(d, i))
  }

  /** The frame from record i on, as tokens. */
  function TokensFrom(t: Template, d: seq<Field>, i: int): seq<Token>
    decreases t, 4, |t| - i
  {
    if !(0 <= i < |t|) || !(i < Increment(t, i)) then []
    else ItemTokens(t, d, i) + TokensFrom(t, d, Increment(t, i))
  }

  function TokenSize(k: Token): int {
    match k
    case BitsToken(w, _) => w
    case CountToken(w, _) => w
    case BytesToken(b) => |b|
    case PadToken(n) => n
  }

  function TokensSize(ks: seq<Token>): int {
    if ks == [] then 0 else TokenSize(ks[0]) + TokensSize(ks[1..])
  }

  // The sizes the instance holds are those of a document.

  ghost predicate ElemFilled(t: Template, i: int, slots: map<int, Slot>, k: int, f: Field)
    decreases t, 1
  {
    0 <= i < |t| &&
    match t[i]
    case Bits(_) => true
    case Barray => SizeAt(slots, k) == |BytesOf(f)|
    case Pointer => Points(t, i) && Filled(t[i + 1].sub, SubAt(slots, k), FieldsOf(f))
    case _ => false
  }

  ghost predicate ListFilled(t: Template, i: int, it: Loop, es: seq<Field>)
    decreases t, 2
  {
    !it.exp && it.max == |es| && forall k :: 0 <= k < |es| ==> ElemFilled(t, i, it.slots, k, es[k])
  }

  ghost predicate ItemFilled(t: Template, slots: map<int, Slot>, d: seq<Field>, i: int)
    requires 0 <= i < |t|
    decreases t, 3
  {
    match t[i]
    case Barray => SizeAt(slots, i) == |BytesOf(FieldAt(d, i))|
    case Iter => i in slots && ListFilled(t, i + 1, ListAt(slots, i), ElemsOf(FieldAt(d, i)))
    case Pointer => i in slots && Points(t, i) && Filled(t[i + 1].sub, SubAt(slots, i), FieldsOf(FieldAt(d, i)))
    case _ => true
  }

  /** All the sizes and counts of document d are set. */
  ghost predicate Filled(t: Template, s: Inst, d: seq<Field>)
    decreases t, 4
  {
    forall i :: Boundary(t, i) && i < |t| - 1 ==> ItemFilled(t, s.slots, d, i)
  }

  /** The items before record n have all their sizes and counts. */
  ghost predicate FilledTo(t: Template, s: Inst, d: seq<Field>, n: int) {
    forall i :: 0 <= i < n && Boundary(t, i) && i < |t| - 1 ==> ItemFilled(t, s.slots, d, i)
  }

  lemma {:induction false} ElemTotalIs(t: Template, i: int, slots: map<int, Slot>, k: int, f: Field)
    requires CodecOk(t) && ElemFilled(t, i, slots, k, f)
    ensures ElemTotal(t, i, slots, k) == ElemSize(t, i, f)
    decreases t, 1
  {
    if t[i].Pointer? {
      PointsAt(t, i);
      FrameTotalIs(t[i + 1].sub, SubAt(slots, k), FieldsOf(f));
    } else if t[i].Bits? {
      assert i < |t| - 1 && RecordCodes(t, i);
    }
  }

  lemma {:induction false} ElemsTotalIs(t: Template, i: int, slots: map<int, Slot>, k: int, es: seq<Field>)
    requires CodecOk(t) && 0 <= k <= |es| && forall j :: k <= j < |es| ==> ElemFilled(t, i, slots, j, es[j])
    ensures ElemsTotal(t, i, slots, k, |es|) == Known(ElemsSize(t, i, es[k..]))
    decreases t, 2, |es| - k
  {
    if k < |es| {
      ElemTotalIs(t, i, slots, k, es[k]);
      ElemsTotalIs(t, i, slots, k + 1, es);
      assert es[k..][0] == es[k] && es[k..][1..] == es[k + 1..];
    }
  }

  lemma {:induction false} LoopTotalIs(t: Template, i: int, it: Loop, es: seq<Field>)
    requires CodecOk(t) && ListFilled(t, i, it, es)
    ensures LoopTotal(t, i, it) == ElemsSize(t, i, es)
    decreases t, 3
  {
    ElemsTotalIs(t, i, it.slots, 0, es);
    assert es[0..] == es;
  }

  lemma {:induction false} ItemTotalIs(t: Template, s: Inst, d: seq<Field>, i: int)
    requires CodecOk(t) && FilledTo(t, s, d, i + 1) && Boundary(t, i) && i < |t| - 1
    ensures ItemTotal(t, s, i) == ItemSize(t, d, i)
    decreases t, 4, i, 1
  {
    assert ItemFilled(t, s.slots, d, i) && RecordCodes(t, i) && RecordOk(t, i);
    match t[i] {
      case Iter => LoopTotalIs(t, i + 1, ListAt(s.slots, i), ElemsOf(FieldAt(d, i)));
      case Pointer =>
        PointsAt(t, i);
        FrameTotalIs(t[i + 1].sub, SubAt(s.slots, i), FieldsOf(FieldAt(d, i)));
      case Padding(_, n) => BackTotalIs(t, s, d, i, n);
      case _ =>
    }
  }

  lemma {:induction false} BackTotalIs(t: Template, s: Inst, d: seq<Field>, i: int, n: int)
    requires CodecOk(t) && FilledTo(t, s, d, i) && Boundary(t, i)
    ensures BackTotal(t, s, i, n) == BackSize(t, d, i, n)
    decreases t, 4, i, 0
  {
    if n > 0 && i > 0 {
      IncrementUndoesDecrement(t, i);
      ItemTotalIs(t, s, d, Decrement(t, i));
      BackTotalIs(t, s, d, Decrement(t, i), n - 1);
    }
  }

  lemma {:induction false} TotalFromIs(t: Template, s: Inst, d: seq<Field>, i: int)
    requires CodecOk(t) && Filled(t, s, d) && Boundary(t, i)
    ensures TotalFrom(t, s, i) == SizeFrom(t, d, i)
    decreases t, 5, |t| - i
  {
    if i < |t| - 1 {
      assert RecordOk(t, i);
      DecrementUndoesIncrement(t, i);
      ItemTotalIs(t, s, d, i);
      TotalFromIs(t, s, d, Increment(t, i));
    }
  }

  /** FrameMgrGetTotalSize is the length of the frame once all sizes and counts are set. */
  lemma {:induction false} FrameTotalIs(t: Template, s: Inst, d: seq<Field>)
    requires CodecOk(t) && Filled(t, s, d)
    ensures FrameTotal(t, s) == SizeFrom(t, d, 0)
    decreases t, 6
  {
    StartBoundary(t);
    TotalFromIs(t, s, d, 0);
  }

  lemma StartBoundary(t: Template)
    requires ShapeOk(t)
    ensures Boundary(t, 0)
  {
    assert |t| > 1 ==> RecordOk(t, 0);
  }

  lemma {:induction false} TokensSizeConcat(a: seq<Token>, b: seq<Token>)
    ensures TokensSize(a + b) == TokensSize(a) + TokensSize(b)
  {
    if a == [] {
      assert a + b == b;
    } else {
      assert (a + b)[0] == a[0] && (a + b)[1..] == a[1..] + b;
      TokensSizeConcat(a[1..], b);
    }
  }

  lemma {:induction false} ElemTokensSize(t: Template, i: int, f: Field)
    requires CodecOk(t) && 0 <= i < |t| - 1
    ensures TokensSize(ElemTokens(t, i, f)) == ElemSize(t, i, f)
    decreases t, 1
  {
    assert RecordCodes(t, i);
    match t[i] {
      case Pointer =>
        PointsAt(t, i);
        TokensFromSize(t[i + 1].sub, FieldsOf(f), 0);
      case Bits(w) => assert TokensSize([BitsToken(w, NumOf(f))]) == w + TokensSize([]);
      case Barray => assert TokensSize([BytesToken(BytesOf(f))]) == |BytesOf(f)| + TokensSize([]);
      case _ =>
    }
  }

  lemma {:induction false} ElemsTokensSize(t: Template, i: int, es: seq<Field>)
    requires CodecOk(t) && 0 <= i < |t| - 1
    ensures TokensSize(ElemsTokens(t, i, es)) == ElemsSize(t, i, es)
    decreases t, 2, |es|
  {
    if es != [] {
      ElemTokensSize(t, i, es[0]);
      ElemsTokensSize(t, i, es[1..]);
      TokensSizeConcat(ElemTokens(t, i, es[0]), ElemsTokens(t, i, es[1..]));
    }
  }

  lemma {:induction false} ItemTokensSize(t: Template, d: seq<Field>, i: int)
    requires CodecOk(t) && 0 <= i < |t| - 1
    ensures TokensSize(ItemTokens(t, d, i)) == ItemSize(t, d, i)
    decreases t, 3
  {
    if t[i].Counter? {
      assert RecordCodes(t, i);
      var k := CountToken(t[i].width, CountOf(t, d, i));
      assert TokensSize([k]) == t[i].width + TokensSize([]);
    } else if t[i].Padding? {
      var len := PadLen(t[i].unit, BackSize(t, d, i, t[i].number));
      assert TokensSize([PadToken(len)]) == len + TokensSize([]);
    } else if t[i].Iter? {
      assert RecordOk(t, i);
      ElemsTokensSize(t, i + 1, ElemsOf(FieldAt(d, i)));
    } else {
      ElemTokensSize(t, i, FieldAt(d, i));
    }
  }

  /** The tokens take just the bytes the size computation counts. */
  lemma {:induction false} TokensFromSize(t: Template, d: seq<Field>, i: int)
    requires CodecOk(t) && 0 <= i
    ensures TokensSize(TokensFrom(t, d, i)) == SizeFrom(t, d, i)
    decreases t, 4, |t| - i
  {
    if i < |t| && i < Increment(t, i) {
      ItemTokensSize(t, d, i);
      TokensFromSize(t, d, Increment(t, i));
      TokensSizeConcat(ItemTokens(t, d, i), TokensFrom(t, d, Increment(t, i)));
    }
  }

  // Where the cursor stands.

  /** The element has not been started. */
  ghost predicate ElemRewound(t: Template, i: int, slots: map<int, Slot>, k: int)
    decreases t, 1
  {
    Points(t, i) ==> Rewound(t[i + 1].sub, SubAt(slots, k))
  }

  ghost predicate LoopRewound(t: Template, i: int, it: Loop)
    decreases t, 2, 0
  {
    it.cur == 0 && forall k :: ElemRewound(t, i, it.slots, k)
  }

  ghost predicate ItemRewound(t: Template, slots: map<int, Slot>, i: int)
    requires 0 <= i < |t|
    decreases t, 2, 1
  {
    match t[i]
    case Iter => LoopRewound(t, i + 1, ListAt(slots, i))
    case Pointer => ElemRewound(t, i, slots, i)
    case _ => true
  }

  /** As after FrameInstInit or FrameInstReset. */
  ghost predicate Rewound(t: Template, s: Inst)
    decreases t, 3
  {
    s.cur == 0 && forall i :: 0 <= i < |t| ==> ItemRewound(t, s.slots, i)
  }

  ghost predicate LoopPlaced(t: Template, i: int, it: Loop)
    decreases t, 1
  {
    && 0 <= it.cur
    && (Points(t, i) ==> Placed(t[i + 1].sub, SubAt(it.slots, it.cur)))
    && forall k :: k > it.cur ==> ElemRewound(t, i, it.slots, k)
  }

  ghost predicate ItemPlaced(t: Template, s: Inst)
    requires 0 <= s.cur < |t|
    decreases t, 2
  {
    match t[s.cur]
    case Iter => LoopPlaced(t, s.cur + 1, ListAt(s.slots, s.cur))
    case Pointer => Points(t, s.cur) ==> Placed(t[s.cur + 1].sub, SubAt(s.slots, s.cur))
    case _ => true
  }

  /** The cursor is at an item, inside it properly placed, and nothing after it is started. */
  ghost predicate Placed(t: Template, s: Inst)
    decreases t, 3
  {
    Boundary(t, s.cur) && ItemPlaced(t, s) && forall i :: s.cur < i < |t| ==> ItemRewound(t, s.slots, i)
  }

  lemma {:induction false} RewoundPlaced(t: Template, s: Inst)
    requires CodecOk(t) && Rewound(t, s)
    ensures Placed(t, s)
    decreases t
  {
    StartBoundary(t);
    assert ItemRewound(t, s.slots, 0);
    ItemRewoundPlaced(t, s);
  }

  lemma {:induction false} ItemRewoundPlaced(t: Template, s: Inst)
    requires CodecOk(t) && 0 <= s.cur < |t| && ItemRewound(t, s.slots, s.cur)
    ensures ItemPlaced(t, s)
    decreases t, 0
  {
    match t[s.cur] {
      case Iter =>
        assert RecordOk(t, s.cur);
        if t[s.cur + 1].Pointer? {
          PointsAt(t, s.cur + 1);
          var it := ListAt(s.slots, s.cur);
          assert ElemRewound(t, s.cur + 1, it.slots, 0);
          RewoundPlaced(t[s.cur + 2].sub, SubAt(it.slots, 0));
        }
      case Pointer =>
        PointsAt(t, s.cur);
        RewoundPlaced(t[s.cur + 1].sub, SubAt(s.slots, s.cur));
      case _ =>
    }
  }

  /** A frame that has just been created is rewound. */
  lemma {:induction false} FreshRewound(t: Template)
    ensures Rewound(t, FreshInst())
    decreases t
  {
    forall i | 0 <= i < |t| ensures ItemRewound(t, FreshInst().slots, i) {
      forall j, k | Points(t, j) ensures ElemRewound(t, j, map[], k) {
        FreshRewound(t[j + 1].sub);
      }
    }
  }

  /** The tokens not yet reported. */
  function LoopRest(t: Template, i: int, it: Loop, es: seq<Field>): seq<Token>
    decreases t, 1
  {
    if !(0 <= it.cur < |es|) then []
    else
      (if Points(t, i) then Rest(t[i + 1].sub, SubAt(it.slots, it.cur), FieldsOf(es[it.cur]))
       else ElemTokens(t, i, es[it.cur]))
      + ElemsTokens(t, i, es[it.cur + 1..])
  }

  function Rest(t: Template, s: Inst, d: seq<Field>): seq<Token>
    decreases t, 2
  {
    var i := s.cur;
    if !(0 <= i < |t|) then []
    else match t[i]
      case Iter => LoopRest(t, i + 1, ListAt(s.slots, i), ElemsOf(FieldAt(d, i))) + TokensFrom(t, d, Increment(t, i))
      case Pointer =>
        if Points(t, i) then Rest(t[i + 1].sub, SubAt(s.slots, i), FieldsOf(FieldAt(d, i))) + TokensFrom(t, d, Increment(t, i))
        else []
      case _ => TokensFrom(t, d, i)
  }
}
