/** The calls that set up a frame for a document: FrameMgrSetIterCount for each list and
    FrameMgrSetSize for each byte string, in the order of the template. */
module FrameRequests {
  import opened FrameTemplate
  import opened FrameCursor
  import opened FrameTokens
  import opened FrameSetup

  /** FrameInstSetIterCount from record i on: the first list that may grow gets its count. */
  function InstSetCount(t: Template, s: Inst, num: int, i: int): (r: (bool, Inst))
    decreases t, 2, |t| - i
  {
    if !(0 <= i < |t|) || t[i].Eol? || !(i < Increment(t, i)) then (false, s)
    else
      var (ok, slots) := ItemSetCount(t, s.slots, num, i);
      if ok then (true, s.(slots := slots)) else InstSetCount(t, s.(slots := slots), num, Increment(t, i))
  }

  function ItemSetCount(t: Template, slots: map<int, Slot>, num: int, i: int): (bool, map<int, Slot>)
    requires 0 <= i < |t|
    decreases t, 1, 1
  {
    match t[i]
    case Iter =>
      var (ok, it) := LoopSetCount(t, i + 1, ListAt(slots, i), num);
      (ok, slots[i := List(it)])
    case Pointer =>
      if !Points(t, i) then (false, slots)
      else
        var (ok, fi) := InstSetCount(t[i + 1].sub, SubAt(slots, i), num, 0);
        (ok, slots[i := Sub(fi)])
    case _ => (false, slots)
  }

  /** IterSetIterCount. */
  function LoopSetCount(t: Template, i: int, it: Loop, num: int): (bool, Loop)
    decreases t, 1, 0, 1
  {
    if it.exp then (true, it.(max := num, exp := false))
    else if !Points(t, i) then (false, it)
    else
      var (ok, slots) := ElemsSetCount(t, i, it.slots, 0, it.max, num);
      (ok, it.(slots := slots))
  }

  function ElemsSetCount(t: Template, i: int, slots: map<int, Slot>, k: int, max: int, num: int): (bool, map<int, Slot>)
    requires Points(t, i)
    decreases t, 1, 0, 0, max - k
  {
    if k >= max then (false, slots)
    else
      var (ok, fi) := InstSetCount(t[i + 1].sub, SubAt(slots, k), num, 0);
      var slots1 := slots[k := Sub(fi)];
      if ok then (true, slots1) else ElemsSetCount(t, i, slots1, k + 1, max, num)
  }

  /** A frame of numbers, byte strings and paddings alone. */
  predicate Flat(t: Template) {
    CodecOk(t) && forall i :: 0 <= i < |t| - 1 ==> t[i].Bits? || t[i].Barray? || t[i].Padding?
  }

  /** A frame whose inner frames are all flat, and hold a byte string where they are no
      list elements.  The protocol has no other. */
  predicate TwoLevel(t: Template) {
    && CodecOk(t)
    && (forall i :: 0 <= i < |t| ==> (t[i].PtrItem? ==> Flat(t[i].sub)))
    && (forall i :: 0 <= i < |t| ==> InnerOk(t, i))
  }

  predicate InnerOk(t: Template, i: int)
    requires 0 <= i < |t|
  {
    t[i].Pointer? && (i > 0 ==> !t[i - 1].Iter?) ==> Points(t, i) && HasBarray(t[i + 1].sub)
  }

  predicate HasBarray(t: Template) {
    exists i :: 0 <= i < |t| && t[i].Barray?
  }

  function SizesFrom(t: Template, d: seq<Field>, i: int): seq<nat>
    decreases |t| - i
  {
    if !(0 <= i < |t|) then []
    else (if t[i].Barray? then [|BytesOf(FieldAt(d, i))|] else []) + SizesFrom(t, d, i + 1)
  }

  function ElemSizes(t: Template, i: int, f: Field): seq<nat> {
    if !(0 <= i < |t|) then []
    else if t[i].Barray? then [|BytesOf(f)|]
    else if Points(t, i) then SizesFrom(t[i + 1].sub, FieldsOf(f), 0)
    else []
  }

  function ListSizes(t: Template, i: int, es: seq<Field>): seq<nat> {
    if es == [] then [] else ElemSizes(t, i, es[0]) + ListSizes(t, i, es[1..])
  }

  function ItemSizes(t: Template, d: seq<Field>, i: int): seq<nat>
    requires 0 <= i < |t|
  {
    match t[i]
    case Iter => ListSizes(t, i + 1, ElemsOf(FieldAt(d, i)))
    case _ => ElemSizes(t, i, FieldAt(d, i))
  }

  /** What the writer of document d tells the frame, item by item. */
  function Setup(t: Template, s: Inst, d: seq<Field>, i: int): Inst
    decreases |t| - i
  {
    if !(0 <= i < |t|) || t[i].Eol? || !(i < Increment(t, i)) then s
    else
      var s1 := if t[i].Iter? then InstSetCount(t, s, |ElemsOf(FieldAt(d, i))|, 0).1 else s;
      Setup(t, SetSizes(t, s1, ItemSizes(t, d, i)), d, Increment(t, i))
  }

  function SetSizes(t: Template, s: Inst, sizes: seq<nat>): Inst
    decreases |sizes|
  {
    if sizes == [] then s else SetSizes(t, InstSetSize(t, s, sizes[0], 0).1, sizes[1..])
  }

  // The holes of a fresh item are the sizes of the document.

  lemma {:induction false} FlatHoles(t: Template, d: seq<Field>, i: int)
    requires Flat(t) && Boundary(t, i)
    ensures Holes(t, map[], d, i) == SizesFrom(t, d, i)
    decreases |t| - i
  {
    if i < |t| - 1 {
      FlatHoles(t, d, i + 1);
    }
  }

  lemma {:induction false} FreshElemsHoles(t: Template, i: int, k: int, es: seq<Field>)
    requires TwoLevel(t) && 0 <= i < |t| - 1 && 0 <= k <= |es|
    ensures ElemsHoles(t, i, map[], k, |es|, es) == ListSizes(t, i, es[k..])
    decreases |es| - k
  {
    if k < |es| {
      FreshElemsHoles(t, i, k + 1, es);
      assert es[k..][0] == es[k] && es[k..][1..] == es[k + 1..];
      if Points(t, i) {
        StartBoundary(t[i + 1].sub);
        FlatHoles(t[i + 1].sub, FieldsOf(es[k]), 0);
      }
    }
  }

  /** Nothing is left to be given at record j. */
  ghost predicate ItemDone(t: Template, s: Inst, d: seq<Field>, j: int)
    requires 0 <= j < |t|
  {
    && ItemHoles(t, ViewAt(s.slots, j), d, j) == []
    && (t[j].Iter? ==> j in s.slots && !ListAt(s.slots, j).exp)
    && (t[j].Pointer? ==> j in s.slots)
  }

  /** All is given before record i. */
  ghost predicate DoneTo(t: Template, s: Inst, d: seq<Field>, i: int) {
    Sets(t, s, d) && forall j :: 0 <= j < i && Boundary(t, j) ==> ItemDone(t, s, d, j)
  }

  ghost predicate Untouched(t: Template, s: Inst, i: int) {
    forall j :: i <= j < |t| ==> ViewAt(s.slots, j) == ViewAt(map[], j)
  }

  /** A size for the item at i passes by the items before it. */
  lemma {:induction false} PassTo(t: Template, s: Inst, d: seq<Field>, j: int, i: int, num: nat, s': Inst)
    requires CodecOk(t) && Boundary(t, j) && Boundary(t, i) && j <= i < |t| - 1 && DoneTo(t, s, d, i)
    requires ItemHoles(t, ViewAt(s.slots, i), d, i) != [] && ItemHoles(t, ViewAt(s.slots, i), d, i)[0] == num
    requires s' == InstSetSize(t, s, num, j).1
    ensures DoneTo(t, s', d, i) && Same(t, s, s') && UnchangedOutside(s.slots, s'.slots, j, i + 1)
    ensures ItemHoles(t, ViewAt(s'.slots, i), d, i) == ItemHoles(t, ViewAt(s.slots, i), d, i)[1..]
    ensures t[i].Iter? || t[i].Pointer? ==> i in s'.slots
    ensures s.slots.Keys <= s'.slots.Keys
    decreases i - j
  {
    var (ok1, slots1) := ItemSetSize(t, s.slots, num, j);
    var s1 := s.(slots := slots1);
    assert RecordOk(t, j) && ItemSets(t, ViewAt(s.slots, j), d, j);
    DecrementUndoesIncrement(t, j);
    assert j < i ==> ItemDone(t, s, d, j);
    ItemSetSizeIs(t, s.slots, d, j, num, ok1, slots1);
    SetsUpdate(t, s, d, j, s1);
    PassOne(t, s, d, j, i, slots1);
    SameItself(t, s1);
    if j < i {
      NoneBetween(t, j, i);
      PassTo(t, s1, d, Increment(t, j), i, num, s');
      SameStep(t, s, slots1, s', j, Increment(t, j));
    } else {
      SameStep(t, s, slots1, s1, j, Increment(t, j));
    }
  }

  lemma PassOne(t: Template, s: Inst, d: seq<Field>, j: int, i: int, slots1: map<int, Slot>)
    requires DoneTo(t, s, d, i) && Boundary(t, j) && j <= i < |t| && s.slots.Keys <= slots1.Keys
    requires UnchangedOutside(s.slots, slots1, j, j + 1) && ItemSame(t, ViewAt(s.slots, j), ViewAt(slots1, j), j)
    requires j < i ==> ItemHoles(t, ViewAt(slots1, j), d, j) == []
    ensures forall k :: 0 <= k < i && Boundary(t, k) ==> ItemDone(t, s.(slots := slots1), d, k)
  {
    forall k | 0 <= k < i && Boundary(t, k) ensures ItemDone(t, s.(slots := slots1), d, k) {
      assert ItemDone(t, s, d, k);
      assert k != j ==> ViewAt(slots1, k) == ViewAt(s.slots, k);
    }
  }

  lemma SameList(t: Template, v: View, v': View, i: int)
    requires 0 <= i < |t| && ItemSame(t, v, v', i)
    ensures t[i].Iter? ==> v'.it.exp == v.it.exp && v'.it.max == v.it.max && v'.it.cur == v.it.cur
  {
  }

  /** All the sizes of one item. */
  lemma {:induction false} ItemSizesSet(t: Template, s: Inst, d: seq<Field>, i: int, sizes: seq<nat>, s': Inst)
    requires CodecOk(t) && Boundary(t, i) && i < |t| - 1 && DoneTo(t, s, d, i)
    requires sizes == ItemHoles(t, ViewAt(s.slots, i), d, i)
    requires t[i].Iter? || (t[i].Pointer? && sizes == []) ==> i in s.slots
    requires s' == SetSizes(t, s, sizes)
    ensures DoneTo(t, s', d, i) && ItemHoles(t, ViewAt(s'.slots, i), d, i) == []
    ensures t[i].Iter? || t[i].Pointer? ==> i in s'.slots
    ensures forall k :: i < k < |t| ==> ViewAt(s'.slots, k) == ViewAt(s.slots, k)
    ensures Rewound(t, s) ==> Rewound(t, s')
    ensures t[i].Iter? ==> ListAt(s'.slots, i).exp == ListAt(s.slots, i).exp
    decreases |sizes|
  {
    if sizes != [] {
      StartBoundary(t);
      var s1 := InstSetSize(t, s, sizes[0], 0).1;
      PassTo(t, s, d, 0, i, sizes[0], s1);
      assert ItemSame(t, ViewAt(s.slots, i), ViewAt(s1.slots, i), i);
      SameList(t, ViewAt(s.slots, i), ViewAt(s1.slots, i), i);
      assert forall k :: i < k < |t| ==> ViewAt(s1.slots, k) == ViewAt(s.slots, k);
      if Rewound(t, s) {
        SameRewound(t, s, s1);
      }
      ItemSizesSet(t, s1, d, i, sizes[1..], s');
    }
  }

  lemma {:induction false} ElemSameRewound(t: Template, i: int, slots: map<int, Slot>, slots': map<int, Slot>, k: int)
    requires ElemRewound(t, i, slots, k) && ElemSame(t, i, ViewAt(slots, k), ViewAt(slots', k))
    ensures ElemRewound(t, i, slots', k)
    decreases t, 1
  {
    if Points(t, i) && SubAt(slots', k) != SubAt(slots, k) {
      SameRewound(t[i + 1].sub, SubAt(slots, k), SubAt(slots', k));
    }
  }

  lemma {:induction false} LoopSameRewound(t: Template, i: int, it: Loop, it': Loop)
    requires LoopRewound(t, i, it) && LoopSame(t, i, it, it')
    ensures LoopRewound(t, i, it')
    decreases t, 2
  {
    forall k ensures ElemRewound(t, i, it'.slots, k) {
      assert ElemRewound(t, i, it.slots, k) && ElemSame(t, i, ViewAt(it.slots, k), ViewAt(it'.slots, k));
      ElemSameRewound(t, i, it.slots, it'.slots, k);
    }
  }

  lemma {:induction false} SameRewound(t: Template, s: Inst, s': Inst)
    requires Rewound(t, s) && Same(t, s, s')
    ensures Rewound(t, s')
    decreases t, 3
  {
    forall i | 0 <= i < |t| ensures ItemRewound(t, s'.slots, i) {
      assert ItemRewound(t, s.slots, i) && ItemSame(t, ViewAt(s.slots, i), ViewAt(s'.slots, i), i);
      if t[i].Iter? && ListAt(s'.slots, i) != ListAt(s.slots, i) {
        LoopSameRewound(t, i + 1, ListAt(s.slots, i), ListAt(s'.slots, i));
      } else if t[i].Pointer? {
        ElemSameRewound(t, i, s.slots, s'.slots, i);
      }
    }
  }

  // FrameMgrSetIterCount passes by flat inner frames and lists that have their count.

  lemma {:induction false} FlatTakesNoCount(t: Template, s: Inst, num: int, i: int)
    requires Flat(t)
    ensures InstSetCount(t, s, num, i) == (false, s)
    decreases |t| - i
  {
    if 0 <= i < |t| && !t[i].Eol? && i < Increment(t, i) {
      FlatTakesNoCount(t, s, num, Increment(t, i));
    }
  }

  lemma {:induction false} ElemsTakeNoCount(t: Template, i: int, slots: map<int, Slot>, k: int, max: int, num: int)
    requires Points(t, i) && Flat(t[i + 1].sub)
    ensures !ElemsSetCount(t, i, slots, k, max, num).0
    ensures forall j :: SubAt(ElemsSetCount(t, i, slots, k, max, num).1, j) == SubAt(slots, j)
    decreases max - k
  {
    if k < max {
      FlatTakesNoCount(t[i + 1].sub, SubAt(slots, k), num, 0);
      ElemsTakeNoCount(t, i, slots[k := Sub(SubAt(slots, k))], k + 1, max, num);
    }
  }

  /** The same but for inner instances that have been created. */
  ghost predicate Alike(t: Template, v: View, v': View, i: int)
    requires 0 <= i < |t|
  {
    match t[i]
    case Iter =>
      if Points(t, i + 1) then v'.it == v.it.(slots := v'.it.slots) && forall k :: SubAt(v'.it.slots, k) == SubAt(v.it.slots, k)
      else v'.it == v.it
    case Pointer => v'.fi == v.fi
    case _ => v' == v
  }

  lemma {:induction false} AlikeElems(t: Template, i: int, slots: map<int, Slot>, slots': map<int, Slot>, k: int, max: int, es: seq<Field>)
    requires Points(t, i) && 0 <= k && forall j :: SubAt(slots', j) == SubAt(slots, j)
    ensures ElemsHoles(t, i, slots', k, max, es) == ElemsHoles(t, i, slots, k, max, es)
    decreases max - k
  {
    if k < max {
      AlikeElems(t, i, slots, slots', k + 1, max, es);
    }
  }

  lemma AlikeList(t: Template, i: int, it: Loop, it': Loop, es: seq<Field>)
    requires Points(t, i) && it' == it.(slots := it'.slots) && forall k :: SubAt(it'.slots, k) == SubAt(it.slots, k)
    ensures ListSets(t, i, it, es) ==> ListSets(t, i, it', es)
    ensures ListHoles(t, i, it', es) == ListHoles(t, i, it, es)
    ensures LoopRewound(t, i, it) ==> LoopRewound(t, i, it')
  {
    AlikeElems(t, i, it.slots, it'.slots, 0, it.max, es);
    if ListSets(t, i, it, es) {
      forall k | 0 <= k < it.max ensures ElemSets(t, i, ViewAt(it'.slots, k), es[k]) {
        assert ElemSets(t, i, ViewAt(it.slots, k), es[k]);
      }
    }
    if LoopRewound(t, i, it) {
      forall k ensures ElemRewound(t, i, it'.slots, k) {
        assert ElemRewound(t, i, it.slots, k);
      }
    }
  }

  lemma AlikeItem(t: Template, slots: map<int, Slot>, slots': map<int, Slot>, d: seq<Field>, i: int)
    requires 0 <= i < |t| && Alike(t, ViewAt(slots, i), ViewAt(slots', i), i)
    ensures ItemSets(t, ViewAt(slots, i), d, i) ==> ItemSets(t, ViewAt(slots', i), d, i)
    ensures ItemHoles(t, ViewAt(slots', i), d, i) == ItemHoles(t, ViewAt(slots, i), d, i)
    ensures ItemRewound(t, slots, i) ==> ItemRewound(t, slots', i)
  {
    if t[i].Iter? && Points(t, i + 1) {
      AlikeList(t, i + 1, ListAt(slots, i), ListAt(slots', i), ElemsOf(FieldAt(d, i)));
    } else if t[i].Pointer? && ItemRewound(t, slots, i) {
      assert ElemRewound(t, i, slots, i);
      assert ElemRewound(t, i, slots', i);
    }
  }

  lemma ItemTakesNoCount(t: Template, s: Inst, d: seq<Field>, i: int, num: int, slots': map<int, Slot>)
    requires TwoLevel(t) && Boundary(t, i) && i < |t| - 1 && ItemDone(t, s, d, i)
    requires slots' == ItemSetCount(t, s.slots, num, i).1
    ensures !ItemSetCount(t, s.slots, num, i).0 && Alike(t, ViewAt(s.slots, i), ViewAt(slots', i), i)
    ensures UnchangedOutside(s.slots, slots', i, i + 1) && s.slots.Keys <= slots'.Keys
  {
    assert RecordOk(t, i);
    match t[i] {
      case Iter =>
        if Points(t, i + 1) {
          var it := ListAt(s.slots, i);
          ElemsTakeNoCount(t, i + 1, it.slots, 0, it.max, num);
          assert ListAt(slots', i) == LoopSetCount(t, i + 1, it, num).1;
        }
      case Pointer =>
        PointsAt(t, i);
        FlatTakesNoCount(t[i + 1].sub, SubAt(s.slots, i), num, 0);
      case _ =>
    }
  }

  /** A count passes by the items before the list it is for. */
  lemma {:induction false} CountTo(t: Template, s: Inst, d: seq<Field>, j: int, i: int, num: nat, s': Inst)
    requires TwoLevel(t) && Boundary(t, j) && Boundary(t, i) && j <= i < |t| - 1 && DoneTo(t, s, d, i) && t[i].Iter?
    requires ListAt(s.slots, i) == FreshLoop() && num == |ElemsOf(FieldAt(d, i))|
    requires s' == InstSetCount(t, s, num, j).1
    ensures DoneTo(t, s', d, i) && i in s'.slots && ListAt(s'.slots, i) == Loop(num, false, 0, map[], false)
    ensures forall k :: i < k < |t| ==> ViewAt(s'.slots, k) == ViewAt(s.slots, k)
    ensures Rewound(t, s) ==> Rewound(t, s')
    decreases i - j
  {
    var slots1 := ItemSetCount(t, s.slots, num, j).1;
    var s1 := s.(slots := slots1);
    assert RecordOk(t, j) && RecordCodes(t, j);
    DecrementUndoesIncrement(t, j);
    if j < i {
      assert ItemDone(t, s, d, j);
      ItemTakesNoCount(t, s, d, j, num, slots1);
      AlikeInst(t, s, d, j, i, s1);
      NoneBetween(t, j, i);
      CountTo(t, s1, d, Increment(t, j), i, num, s');
    } else {
      assert LoopSetCount(t, i + 1, FreshLoop(), num) == (true, Loop(num, false, 0, map[], false));
      assert ItemSetCount(t, s.slots, num, i) == (true, s.slots[i := List(Loop(num, false, 0, map[], false))]);
      CountHere(t, s, d, i, num, s');
    }
  }

  lemma AlikeInst(t: Template, s: Inst, d: seq<Field>, j: int, i: int, s': Inst)
    requires DoneTo(t, s, d, i) && Boundary(t, j) && j < i < |t| && s'.cur == s.cur && s.slots.Keys <= s'.slots.Keys
    requires UnchangedOutside(s.slots, s'.slots, j, j + 1) && Alike(t, ViewAt(s.slots, j), ViewAt(s'.slots, j), j)
    ensures DoneTo(t, s', d, i)
    ensures Rewound(t, s) ==> Rewound(t, s')
  {
    AlikeItem(t, s.slots, s'.slots, d, j);
    forall k | Boundary(t, k) && k < |t| - 1 ensures ItemSets(t, ViewAt(s'.slots, k), d, k) {
      assert ItemSets(t, ViewAt(s.slots, k), d, k);
    }
    forall k | 0 <= k < i && Boundary(t, k) ensures ItemDone(t, s', d, k) {
      assert ItemDone(t, s, d, k);
    }
    if Rewound(t, s) {
      forall k | 0 <= k < |t| ensures ItemRewound(t, s'.slots, k) {
        assert ItemRewound(t, s.slots, k);
        if k != j {
          assert ViewAt(s'.slots, k) == ViewAt(s.slots, k);
          AlikeItem(t, s.slots, s'.slots, d, k);
        }
      }
    }
  }

  lemma CountHere(t: Template, s: Inst, d: seq<Field>, i: int, num: nat, s': Inst)
    requires TwoLevel(t) && Boundary(t, i) && i < |t| - 1 && DoneTo(t, s, d, i) && t[i].Iter?
    requires ListAt(s.slots, i) == FreshLoop() && num == |ElemsOf(FieldAt(d, i))|
    requires s' == Inst(s.cur, s.slots[i := List(Loop(num, false, 0, map[], false))])
    ensures DoneTo(t, s', d, i)
    ensures Rewound(t, s) ==> Rewound(t, s')
  {
    var it := Loop(num, false, 0, map[], false);
    assert RecordOk(t, i) && RecordCodes(t, i);
    FreshList(t, i + 1, it, ElemsOf(FieldAt(d, i)));
    assert ViewAt(s'.slots, i).it == it;
    SetsUpdate(t, s, d, i, s');
    forall k | 0 <= k < i && Boundary(t, k) ensures ItemDone(t, s', d, k) {
      assert ItemDone(t, s, d, k) && ViewAt(s'.slots, k) == ViewAt(s.slots, k);
    }
    if Rewound(t, s) {
      forall k | 0 <= k < |t| ensures ItemRewound(t, s'.slots, k) {
        assert ItemRewound(t, s.slots, k);
        if k != i {
          assert ViewAt(s'.slots, k) == ViewAt(s.slots, k);
          AlikeItem(t, s.slots, s'.slots, d, k);
        }
      }
    }
  }

  lemma FlatSets(t: Template, d: seq<Field>)
    requires Flat(t)
    ensures Sets(t, FreshInst(), d)
  {
  }

  lemma FreshList(t: Template, i: int, it: Loop, es: seq<Field>)
    requires TwoLevel(t) && 0 <= i < |t| - 1 && (t[i].Bits? || t[i].Barray? || t[i].Pointer?)
    requires it == Loop(|es|, false, 0, map[], false)
    ensures ListSets(t, i, it, es) && LoopRewound(t, i, it)
  {
    if t[i].Pointer? {
      PointsAt(t, i);
    }
    forall k | 0 <= k < it.max ensures ElemSets(t, i, ViewAt(it.slots, k), es[k]) {
      if t[i].Pointer? {
        FlatSets(t[i + 1].sub, FieldsOf(es[k]));
      }
    }
    forall k ensures ElemRewound(t, i, it.slots, k) {
      if Points(t, i) {
        FreshRewound(t[i + 1].sub);
      }
    }
  }

  lemma FreshSets(t: Template, d: seq<Field>)
    requires TwoLevel(t)
    ensures Sets(t, FreshInst(), d)
  {
    forall i | Boundary(t, i) && i < |t| - 1 ensures ItemSets(t, ViewAt(map[], i), d, i) {
      if t[i].Pointer? {
        PointsAt(t, i);
        FlatSets(t[i + 1].sub, FieldsOf(FieldAt(d, i)));
      }
    }
  }

  lemma {:induction false} SomeSize(t: Template, d: seq<Field>, i: int, k: int)
    requires 0 <= i <= k < |t| && t[k].Barray?
    ensures SizesFrom(t, d, i) != []
    decreases k - i
  {
    if i < k {
      SomeSize(t, d, i + 1, k);
    }
  }

  /** The sizes the writer gives for an item are just the ones it has no sizes for. */
  lemma ItemAsks(t: Template, s: Inst, d: seq<Field>, i: int)
    requires TwoLevel(t) && Boundary(t, i) && i < |t| - 1
    requires if t[i].Iter? then ListAt(s.slots, i) == Loop(|ElemsOf(FieldAt(d, i))|, false, 0, map[], false)
             else ViewAt(s.slots, i) == ViewAt(map[], i)
    ensures ItemHoles(t, ViewAt(s.slots, i), d, i) == ItemSizes(t, d, i)
    ensures t[i].Pointer? ==> ItemSizes(t, d, i) != []
  {
    assert RecordOk(t, i) && RecordCodes(t, i);
    match t[i] {
      case Iter =>
        var es := ElemsOf(FieldAt(d, i));
        FreshElemsHoles(t, i + 1, 0, es);
        assert es[0..] == es;
      case Pointer =>
        PointerAsks(t, d, i);
      case _ =>
    }
  }

  lemma PointerAsks(t: Template, d: seq<Field>, i: int)
    requires TwoLevel(t) && Boundary(t, i) && i < |t| - 1 && t[i].Pointer?
    ensures ItemHoles(t, ViewAt(map[], i), d, i) == ItemSizes(t, d, i) != []
  {
    PointsAt(t, i);
    var u, f := t[i + 1].sub, FieldsOf(FieldAt(d, i));
    assert InnerOk(t, i);
    StartBoundary(u);
    FlatHoles(u, f, 0);
    var k :| 0 <= k < |u| && u[k].Barray?;
    SomeSize(u, f, 0, k);
    assert ItemSizes(t, d, i) == ElemSizes(t, i, FieldAt(d, i));
    assert ItemSizes(t, d, i) == SizesFrom(u, f, 0);
    assert ViewAt(map[], i).fi.slots == map[];
    assert ItemHoles(t, ViewAt(map[], i), d, i) == Holes(u, map[], f, 0);
  }

  lemma {:induction false} SetupTo(t: Template, s: Inst, d: seq<Field>, i: int, s': Inst)
    requires TwoLevel(t) && Boundary(t, i) && DoneTo(t, s, d, i) && Untouched(t, s, i) && Rewound(t, s)
    requires s' == Setup(t, s, d, i)
    ensures DoneTo(t, s', d, |t| - 1) && Rewound(t, s')
    decreases |t| - i
  {
    if i < |t| - 1 {
      assert RecordOk(t, i);
      DecrementUndoesIncrement(t, i);
      StartBoundary(t);
      var s1 := if t[i].Iter? then InstSetCount(t, s, |ElemsOf(FieldAt(d, i))|, 0).1 else s;
      if t[i].Iter? {
        assert ViewAt(s.slots, i).it == FreshLoop();
        CountTo(t, s, d, 0, i, |ElemsOf(FieldAt(d, i))|, s1);
      }
      ItemAsks(t, s1, d, i);
      var s2 := SetSizes(t, s1, ItemSizes(t, d, i));
      ItemSizesSet(t, s1, d, i, ItemSizes(t, d, i), s2);
      assert ItemDone(t, s2, d, i);
      forall k | 0 <= k < Increment(t, i) && Boundary(t, k) ensures ItemDone(t, s2, d, k) {
        if k > i {
          NoneBetween(t, i, k);
        }
      }
      SetupTo(t, s2, d, Increment(t, i), s');
    }
  }

  lemma HolesHead(t: Template, slots: map<int, Slot>, d: seq<Field>, i: int)
    requires CodecOk(t) && Boundary(t, i) && i < |t| - 1 && Holes(t, slots, d, i) == []
    ensures ItemHoles(t, ViewAt(slots, i), d, i) == [] == Holes(t, slots, d, Increment(t, i))
    ensures i < Increment(t, i) && Boundary(t, Increment(t, i))
  {
    assert RecordOk(t, i);
    DecrementUndoesIncrement(t, i);
  }

  lemma {:induction false} NoHolesAt(t: Template, slots: map<int, Slot>, d: seq<Field>, i: int, j: int)
    requires CodecOk(t) && Boundary(t, i) && Boundary(t, j) && i <= j < |t| - 1 && Holes(t, slots, d, i) == []
    ensures ItemHoles(t, ViewAt(slots, j), d, j) == []
    decreases j - i
  {
    HolesHead(t, slots, d, i);
    if i < j {
      NoneBetween(t, i, j);
      NoHolesAt(t, slots, d, Increment(t, i), j);
    }
  }

  lemma FlatFilled(t: Template, s: Inst, d: seq<Field>)
    requires Flat(t) && Sets(t, s, d) && Holes(t, s.slots, d, 0) == []
    ensures Filled(t, s, d)
  {
    StartBoundary(t);
    forall i | Boundary(t, i) && i < |t| - 1 ensures ItemFilled(t, s.slots, d, i) {
      assert ItemSets(t, ViewAt(s.slots, i), d, i);
      NoHolesAt(t, s.slots, d, 0, i);
    }
  }

  lemma {:induction false} NoElemHoles(t: Template, i: int, slots: map<int, Slot>, k: int, max: int, es: seq<Field>, j: int)
    requires 0 <= k <= j < max <= |es| && ElemsHoles(t, i, slots, k, max, es) == []
    ensures ElemHoles(t, i, ViewAt(slots, j), es[j]) == []
    decreases j - k
  {
    if k < j {
      NoElemHoles(t, i, slots, k + 1, max, es, j);
    }
  }

  lemma ListFilledWhenDone(t: Template, i: int, it: Loop, es: seq<Field>)
    requires TwoLevel(t) && 0 <= i < |t| - 1 && ListSets(t, i, it, es) && !it.exp && ListHoles(t, i, it, es) == []
    ensures ListFilled(t, i, it, es)
  {
    forall k | 0 <= k < |es| ensures ElemFilled(t, i, it.slots, k, es[k]) {
      assert ElemSets(t, i, ViewAt(it.slots, k), es[k]);
      NoElemHoles(t, i, it.slots, 0, it.max, es, k);
      if t[i].Pointer? {
        FlatFilled(t[i + 1].sub, SubAt(it.slots, k), FieldsOf(es[k]));
      }
    }
  }

  /** The main property: after its writer's calls a frame has all the sizes and counts of
      the document, and its cursor is at the start. */
  lemma SetupFills(t: Template, d: seq<Field>, s': Inst)
    requires TwoLevel(t) && s' == Setup(t, FreshInst(), d, 0)
    ensures Filled(t, s', d) && Rewound(t, s')
  {
    StartBoundary(t);
    FreshSets(t, d);
    FreshRewound(t);
    SetupTo(t, FreshInst(), d, 0, s');
    forall i | Boundary(t, i) && i < |t| - 1 ensures ItemFilled(t, s'.slots, d, i) {
      assert ItemDone(t, s', d, i) && ItemSets(t, ViewAt(s'.slots, i), d, i);
      if t[i].Iter? {
        assert RecordOk(t, i);
        ListFilledWhenDone(t, i + 1, ListAt(s'.slots, i), ElemsOf(FieldAt(d, i)));
      } else if t[i].Pointer? {
        PointsAt(t, i);
        FlatFilled(t[i + 1].sub, SubAt(s'.slots, i), FieldsOf(FieldAt(d, i)));
      }
    }
  }
}
