/** Each call of the cursor reports the next token of the frame and leaves the rest. */
module FrameWalk {
  import opened FrameTemplate
  import opened FrameCursor
  import opened FrameTokens

  predicate Reports(info: Info, k: Token) {
    match k
    case BitsToken(w, _) => info == BitsInfo(w)
    case CountToken(w, v) => info.CounterInfo? && info.w == w && info.length == v
    case BytesToken(b) => info == BarrayInfo(|b|)
    case PadToken(n) => info == PadInfo(n)
  }

  lemma {:induction false} LoopRestRewound(t: Template, i: int, it: Loop, es: seq<Field>)
    requires CodecOk(t) && 0 <= i < |t| - 1 && it.cur >= 0
    requires Points(t, i) ==> Rewound(t[i + 1].sub, SubAt(it.slots, it.cur))
    ensures LoopRest(t, i, it, es) == if it.cur < |es| then ElemsTokens(t, i, es[it.cur..]) else []
    decreases t, 0
  {
    if it.cur < |es| {
      var rest := es[it.cur..];
      assert rest[0] == es[it.cur] && rest[1..] == es[it.cur + 1..];
      if Points(t, i) {
        RestRewound(t[i + 1].sub, SubAt(it.slots, it.cur), FieldsOf(es[it.cur]));
      }
    }
  }

  /** Before a rewound item, what is left is the frame from that item on. */
  lemma {:induction false} RestAtItem(t: Template, s: Inst, d: seq<Field>)
    requires CodecOk(t) && 0 <= s.cur < |t| && Boundary(t, s.cur) && ItemRewound(t, s.slots, s.cur)
    ensures Rest(t, s, d) == TokensFrom(t, d, s.cur)
    decreases t, 1
  {
    var i := s.cur;
    if i < |t| - 1 {
      assert RecordOk(t, i);
      DecrementUndoesIncrement(t, i);
      if t[i].Iter? {
        var it, es := ListAt(s.slots, i), ElemsOf(FieldAt(d, i));
        assert ElemRewound(t, i + 1, it.slots, 0);
        LoopRestRewound(t, i + 1, it, es);
        assert es[0..] == es;
        assert ItemTokens(t, d, i) == ElemsTokens(t, i + 1, es);
      } else if t[i].Pointer? {
        PointsAt(t, i);
        assert ElemRewound(t, i, s.slots, i);
        RestRewound(t[i + 1].sub, SubAt(s.slots, i), FieldsOf(FieldAt(d, i)));
        assert ItemTokens(t, d, i) == ElemTokens(t, i, FieldAt(d, i));
      }
    }
  }

  lemma {:induction false} RestRewound(t: Template, s: Inst, d: seq<Field>)
    requires CodecOk(t) && Rewound(t, s)
    ensures Rest(t, s, d) == TokensFrom(t, d, 0)
    decreases t, 2
  {
    StartBoundary(t);
    RestAtItem(t, s, d);
  }

  /** The cursor moved past the item at i. */
  lemma AdvanceIs(t: Template, s: Inst, d: seq<Field>, i: int)
    requires CodecOk(t) && Boundary(t, i) && i < |t| - 1 && s.cur == Increment(t, i)
    requires forall j :: i < j < |t| ==> ItemRewound(t, s.slots, j)
    ensures i < s.cur && Placed(t, s) && Rest(t, s, d) == TokensFrom(t, d, s.cur)
    ensures TokensFrom(t, d, i) == ItemTokens(t, d, i) + TokensFrom(t, d, s.cur)
  {
    DecrementUndoesIncrement(t, i);
    ItemRewoundPlaced(t, s);
    RestAtItem(t, s, d);
  }

  /** What one step of a list does. */
  ghost predicate LoopStep(t: Template, i: int, es: seq<Field>, rest: seq<Token>, info: Info, it': Loop) {
    && ListFilled(t, i, it', es)
    && if rest == [] then info.End? else Reports(info, rest[0]) && LoopPlaced(t, i, it') && LoopRest(t, i, it', es) == rest[1..]
  }

  /** What one step of a frame does: with nothing left it reports the end, else the next
      token, and the rest of the tokens is left. */
  ghost predicate InstStep(t: Template, d: seq<Field>, rest: seq<Token>, info: Info, s': Inst) {
    && Filled(t, s', d)
    && if rest == [] then info.End? && s'.cur == -1 else Reports(info, rest[0]) && Placed(t, s') && Rest(t, s', d) == rest[1..]
  }

  lemma {:induction false} DatumStep(t: Template, i: int, it: Loop, es: seq<Field>, info: Info, it': Loop)
    requires CodecOk(t) && 0 <= i < |t| - 1 && (t[i].Bits? || t[i].Barray?)
    requires ListFilled(t, i, it, es) && LoopPlaced(t, i, it) && it.cur < it.max
    requires (info, it') == LoopNext(t, i, it)
    ensures LoopStep(t, i, es, LoopRest(t, i, it, es), info, it')
  {
    assert ElemFilled(t, i, it.slots, it.cur, es[it.cur]);
    LoopRestRewound(t, i, it', es);
  }

  lemma ListFilledUpdate(t: Template, i: int, it: Loop, es: seq<Field>, fi: Inst, it': Loop)
    requires ListFilled(t, i, it, es) && Points(t, i) && 0 <= it.cur < |es|
    requires Filled(t[i + 1].sub, fi, FieldsOf(es[it.cur]))
    requires it'.exp == it.exp && it'.max == it.max && it'.slots == it.slots[it.cur := Sub(fi)]
    ensures ListFilled(t, i, it', es)
  {
    forall k | 0 <= k < |es| ensures ElemFilled(t, i, it'.slots, k, es[k]) {
      assert ElemFilled(t, i, it.slots, k, es[k]);
    }
  }

  /** Past an element that has no more tokens. */
  lemma ElemLeft(t: Template, i: int, it: Loop, es: seq<Field>, fi: Inst, it': Loop)
    requires CodecOk(t) && 0 <= i < |t| - 1 && Points(t, i)
    requires ListFilled(t, i, it, es) && LoopPlaced(t, i, it) && it.cur < |es|
    requires Filled(t[i + 1].sub, fi, FieldsOf(es[it.cur]))
    requires it' == it.(start := false, slots := it.slots[it.cur := Sub(fi)], cur := it.cur + 1)
    ensures ListFilled(t, i, it', es) && LoopPlaced(t, i, it')
    ensures LoopRest(t, i, it', es) == ElemsTokens(t, i, es[it.cur + 1..])
  {
    PointsAt(t, i);
    ListFilledUpdate(t, i, it, es, fi, it');
    forall k | k > it.cur ensures ElemRewound(t, i, it'.slots, k) {
      assert ElemRewound(t, i, it.slots, k);
    }
    assert ElemRewound(t, i, it'.slots, it'.cur);
    RewoundPlaced(t[i + 1].sub, SubAt(it'.slots, it'.cur));
    LoopRestRewound(t, i, it', es);
    assert it'.cur == |es| ==> es[it.cur + 1..] == [];
  }

  lemma ElemStay(t: Template, i: int, it: Loop, es: seq<Field>, info: Info, fi: Inst, it': Loop)
    requires CodecOk(t) && 0 <= i < |t| - 1 && Points(t, i)
    requires ListFilled(t, i, it, es) && LoopPlaced(t, i, it) && it.cur < |es| && !info.End?
    requires InstStep(t[i + 1].sub, FieldsOf(es[it.cur]), Rest(t[i + 1].sub, SubAt(it.slots, it.cur), FieldsOf(es[it.cur])), info, fi)
    requires it' == it.(start := false, slots := it.slots[it.cur := Sub(fi)])
    ensures LoopStep(t, i, es, LoopRest(t, i, it, es), info, it')
  {
    ListFilledUpdate(t, i, it, es, fi, it');
    forall k | k > it.cur ensures ElemRewound(t, i, it'.slots, k) {
      assert ElemRewound(t, i, it.slots, k);
    }
    DropConcat(Rest(t[i + 1].sub, SubAt(it.slots, it.cur), FieldsOf(es[it.cur])), ElemsTokens(t, i, es[it.cur + 1..]));
  }

  lemma {:induction false} LoopNextIs(t: Template, i: int, it: Loop, es: seq<Field>, info: Info, it': Loop)
    requires CodecOk(t) && 0 <= i < |t| - 1 && (t[i].Bits? || t[i].Barray? || t[i].Pointer?)
    requires ListFilled(t, i, it, es) && LoopPlaced(t, i, it)
    requires (info, it') == LoopNext(t, i, it)
    ensures LoopStep(t, i, es, LoopRest(t, i, it, es), info, it')
    decreases t, 0, if it.cur < it.max then it.max - it.cur else 0
  {
    if it.cur >= it.max {
      forall k | 0 <= k < |es| ensures ElemFilled(t, i, it'.slots, k, es[k]) {
        assert ElemFilled(t, i, it.slots, k, es[k]);
      }
    } else if !t[i].Pointer? {
      DatumStep(t, i, it, es, info, it');
    } else {
      PointsAt(t, i);
      var u, f := t[i + 1].sub, FieldsOf(es[it.cur]);
      assert ElemFilled(t, i, it.slots, it.cur, es[it.cur]);
      var (info1, fi) := InstNext(u, SubAt(it.slots, it.cur));
      InstNextIs(u, SubAt(it.slots, it.cur), f, info1, fi);
      if info1.End? {
        var it3 := it.(start := false, slots := it.slots[it.cur := Sub(fi)], cur := it.cur + 1);
        ElemLeft(t, i, it, es, fi, it3);
        assert LoopRest(t, i, it, es) == LoopRest(t, i, it3, es);
        LoopNextIs(t, i, it3, es, info, it');
      } else {
        ElemStay(t, i, it, es, info, fi, it');
      }
    }
  }

  lemma FilledUpdate(t: Template, s: Inst, d: seq<Field>, i: int, slot: Slot, s': Inst)
    requires CodecOk(t) && Filled(t, s, d) && Boundary(t, i) && i < |t| - 1
    requires s'.slots == s.slots[i := slot] && ItemFilled(t, s'.slots, d, i)
    ensures Filled(t, s', d)
  {
    forall j | Boundary(t, j) && j < |t| - 1 ensures ItemFilled(t, s'.slots, d, j) {
      assert ItemFilled(t, s.slots, d, j);
    }
  }

  lemma RewoundUpdate(t: Template, slots: map<int, Slot>, i: int, slot: Slot, slots': map<int, Slot>)
    requires 0 <= i && slots' == slots[i := slot] && forall j :: i < j < |t| ==> ItemRewound(t, slots, j)
    ensures forall j :: i < j < |t| ==> ItemRewound(t, slots', j)
  {
    forall j | i < j < |t| ensures ItemRewound(t, slots', j) {
      assert ItemRewound(t, slots, j);
      assert ListAt(slots', j) == ListAt(slots, j);
      assert t[j].Pointer? ==> ElemRewound(t, j, slots, j) && SubAt(slots', j) == SubAt(slots, j) && ElemRewound(t, j, slots', j);
    }
  }

  lemma SimpleStep(t: Template, s: Inst, d: seq<Field>, info: Info, s': Inst)
    requires CodecOk(t) && Filled(t, s, d) && Placed(t, s) && s.cur < |t| - 1
    requires t[s.cur].Bits? || t[s.cur].Barray? || t[s.cur].Padding? || t[s.cur].Counter?
    requires (info, s') == InstNext(t, s)
    ensures InstStep(t, d, Rest(t, s, d), info, s')
  {
    var i := s.cur;
    assert ItemFilled(t, s.slots, d, i) && RecordCodes(t, i);
    match t[i] {
      case Padding(_, n) => BackTotalIs(t, s, d, i, n);
      case Counter(_, _, offset) => CounterTarget(t, s, d);
      case _ =>
    }
    AdvanceIs(t, s', d, i);
  }

  /** The counter's list is a whole item, and its length is known. */
  lemma CounterTarget(t: Template, s: Inst, d: seq<Field>)
    requires CodecOk(t) && Filled(t, s, d) && Placed(t, s) && s.cur < |t| - 1 && t[s.cur].Counter?
    ensures var at := s.cur + t[s.cur].offset;
      && 0 <= at < |t| && t[at].Iter? && s.slots[at := List(ListAt(s.slots, at))] == s.slots
      && LoopTotal(t, at + 1, ListAt(s.slots, at)) == ElemsSize(t, at + 1, ElemsOf(FieldAt(d, at)))
      && !ListAt(s.slots, at).exp && ListAt(s.slots, at).max == |ElemsOf(FieldAt(d, at))|
  {
    var at := s.cur + t[s.cur].offset;
    assert RecordCodes(t, s.cur) && RecordOk(t, at);
    if at > 0 {
      assert RecordOk(t, at - 1) && RecordCodes(t, at - 1);
    }
    assert Boundary(t, at);
    assert ItemFilled(t, s.slots, d, at);
    LoopTotalIs(t, at + 1, ListAt(s.slots, at), ElemsOf(FieldAt(d, at)));
  }

  /** The main property of the cursor. */
  lemma {:induction false} InstNextIs(t: Template, s: Inst, d: seq<Field>, info: Info, s': Inst)
    requires CodecOk(t) && Filled(t, s, d) && Placed(t, s)
    requires (info, s') == InstNext(t, s)
    ensures InstStep(t, d, Rest(t, s, d), info, s')
    decreases t, 1, Left(t, s.cur)
  {
    var i := s.cur;
    if i == |t| - 1 {
      forall j | Boundary(t, j) && j < |t| - 1 ensures ItemFilled(t, s'.slots, d, j) {
        assert ItemFilled(t, s.slots, d, j);
      }
    } else {
      assert RecordOk(t, i) && RecordCodes(t, i) && ItemFilled(t, s.slots, d, i);
      match t[i] {
        case Iter => ListStep(t, s, d, info, s');
        case Pointer => FrameStep(t, s, d, info, s');
        case _ => SimpleStep(t, s, d, info, s');
      }
    }
  }

  /** Past an item that has no more tokens. */
  lemma ItemLeft(t: Template, s: Inst, d: seq<Field>, slot: Slot, s': Inst)
    requires CodecOk(t) && Filled(t, s, d) && Placed(t, s) && s.cur < |t| - 1
    requires s' == Inst(Increment(t, s.cur), s.slots[s.cur := slot]) && ItemFilled(t, s'.slots, d, s.cur)
    ensures Filled(t, s', d) && Placed(t, s') && s.cur < s'.cur && Rest(t, s', d) == TokensFrom(t, d, s'.cur)
  {
    FilledUpdate(t, s, d, s.cur, slot, s');
    RewoundUpdate(t, s.slots, s.cur, slot, s'.slots);
    AdvanceIs(t, s', d, s.cur);
  }

  lemma DropConcat(a: seq<Token>, b: seq<Token>)
    requires a != []
    ensures (a + b)[0] == a[0] && (a + b)[1..] == a[1..] + b
  {
  }

  /** Inside an item that has more tokens. */
  lemma ItemStays(t: Template, s: Inst, d: seq<Field>, slot: Slot, s': Inst)
    requires CodecOk(t) && Filled(t, s, d) && Placed(t, s) && s.cur < |t| - 1
    requires s' == Inst(s.cur, s.slots[s.cur := slot]) && ItemFilled(t, s'.slots, d, s.cur) && ItemPlaced(t, s')
    ensures Filled(t, s', d) && Placed(t, s')
  {
    FilledUpdate(t, s, d, s.cur, slot, s');
    RewoundUpdate(t, s.slots, s.cur, slot, s'.slots);
  }

  lemma StayStep(t: Template, d: seq<Field>, inner: seq<Token>, after: seq<Token>, rest: seq<Token>, info: Info, s': Inst)
    requires Filled(t, s', d) && Placed(t, s') && rest == inner + after && inner != []
    requires Reports(info, inner[0]) && Rest(t, s', d) == inner[1..] + after
    ensures InstStep(t, d, rest, info, s')
  {
    assert rest[0] == inner[0] && rest[1..] == inner[1..] + after;
  }

  lemma ListStay(t: Template, s: Inst, d: seq<Field>, es: seq<Field>, inner: seq<Token>, info: Info, it: Loop, s': Inst)
    requires CodecOk(t) && Filled(t, s, d) && Placed(t, s) && s.cur < |t| - 1 && t[s.cur].Iter?
    requires s' == Inst(s.cur, s.slots[s.cur := List(it)]) && !info.End?
    requires es == ElemsOf(FieldAt(d, s.cur)) && inner == LoopRest(t, s.cur + 1, ListAt(s.slots, s.cur), es)
    requires LoopStep(t, s.cur + 1, es, inner, info, it)
    ensures InstStep(t, d, Rest(t, s, d), info, s')
  {
    assert ListAt(s'.slots, s.cur) == it;
    ItemStays(t, s, d, List(it), s');
    StayStep(t, d, inner, TokensFrom(t, d, Increment(t, s.cur)), Rest(t, s, d), info, s');
  }

  lemma {:induction false} ListStep(t: Template, s: Inst, d: seq<Field>, info: Info, s': Inst)
    requires CodecOk(t) && Filled(t, s, d) && Placed(t, s) && s.cur < |t| - 1 && t[s.cur].Iter?
    requires (info, s') == InstNext(t, s)
    ensures InstStep(t, d, Rest(t, s, d), info, s')
    decreases t, 1, Left(t, s.cur), 0
  {
    var i := s.cur;
    var it, es := ListAt(s.slots, i), ElemsOf(FieldAt(d, i));
    assert RecordOk(t, i) && RecordCodes(t, i) && ItemFilled(t, s.slots, d, i);
    var (info1, it1) := LoopNext(t, i + 1, it);
    var inner := LoopRest(t, i + 1, it, es);
    LoopNextIs(t, i + 1, it, es, info1, it1);
    if info1.End? {
      var moved := Inst(Increment(t, i), s.slots[i := List(it1)]);
      assert ListAt(moved.slots, i) == it1;
      ItemLeft(t, s, d, List(it1), moved);
      ListSpent(t, s, d);
      InstNextIs(t, moved, d, info, s');
    } else {
      ListStay(t, s, d, es, inner, info, it1, s');
    }
  }

  lemma ListSpent(t: Template, s: Inst, d: seq<Field>)
    requires 0 <= s.cur < |t| && t[s.cur].Iter?
    requires LoopRest(t, s.cur + 1, ListAt(s.slots, s.cur), ElemsOf(FieldAt(d, s.cur))) == []
    ensures Rest(t, s, d) == TokensFrom(t, d, Increment(t, s.cur))
  {
  }

  lemma FrameStay(t: Template, s: Inst, d: seq<Field>, f: seq<Field>, inner: seq<Token>, info: Info, fi: Inst, s': Inst)
    requires CodecOk(t) && Filled(t, s, d) && Placed(t, s) && s.cur < |t| - 1 && Points(t, s.cur)
    requires s' == Inst(s.cur, s.slots[s.cur := Sub(fi)]) && !info.End?
    requires f == FieldsOf(FieldAt(d, s.cur)) && inner == Rest(t[s.cur + 1].sub, SubAt(s.slots, s.cur), f)
    requires InstStep(t[s.cur + 1].sub, f, inner, info, fi)
    ensures InstStep(t, d, Rest(t, s, d), info, s')
  {
    assert SubAt(s'.slots, s.cur) == fi;
    ItemStays(t, s, d, Sub(fi), s');
    StayStep(t, d, inner, TokensFrom(t, d, Increment(t, s.cur)), Rest(t, s, d), info, s');
  }

  lemma {:induction false} FrameStep(t: Template, s: Inst, d: seq<Field>, info: Info, s': Inst)
    requires CodecOk(t) && Filled(t, s, d) && Placed(t, s) && s.cur < |t| - 1 && t[s.cur].Pointer?
    requires (info, s') == InstNext(t, s)
    ensures InstStep(t, d, Rest(t, s, d), info, s')
    decreases t, 1, Left(t, s.cur), 0
  {
    var i := s.cur;
    PointsAt(t, i);
    var u, fi, f := t[i + 1].sub, SubAt(s.slots, i), FieldsOf(FieldAt(d, i));
    assert ItemFilled(t, s.slots, d, i);
    var (info1, fi1) := InstNext(u, fi);
    InstNextIs(u, fi, f, info1, fi1);
    if info1.End? {
      var moved := Inst(Increment(t, i), s.slots[i := Sub(fi1)]);
      ItemLeft(t, s, d, Sub(fi1), moved);
      assert Rest(t, s, d) == Rest(t, moved, d);
      InstNextIs(t, moved, d, info, s');
    } else {
      FrameStay(t, s, d, f, Rest(u, fi, f), info, fi1, s');
    }
  }
}
