/** Telling a frame its sizes and counts before it is written (src/lib/IMdkit/FrameMgr.c,
    FrameMgrSetSize and FrameMgrSetIterCount). */
module FrameSetup {
  import opened FrameTemplate
  import opened FrameCursor
  import opened FrameTokens

  /** ChainMgrSetData appends, so an entry that is there already stays in front. */
  function Append(slots: map<int, Slot>, k: int, slot: Slot): map<int, Slot> {
    if k in slots then slots else slots[k := slot]
  }

  /** FrameInstSetSize from record i on: the first byte string without a size gets one. */
  function InstSetSize(t: Template, s: Inst, num: int, i: int): (r: (bool, Inst))
    decreases t, 2, |t| - i
  {
    if !(0 <= i < |t|) || t[i].Eol? || !(i < Increment(t, i)) then (false, s)
    else
      var (ok, slots) := ItemSetSize(t, s.slots, num, i);
      if ok then (true, s.(slots := slots)) else InstSetSize(t, s.(slots := slots), num, Increment(t, i))
  }

  function ItemSetSize(t: Template, slots: map<int, Slot>, num: int, i: int): (bool, map<int, Slot>)
    requires 0 <= i < |t|
    decreases t, 1, 2
  {
    match t[i]
    case Barray => if SizeAt(slots, i) == NO_VALUE then (true, slots[i := Size(num)]) else (false, slots)
    case Iter =>
      var (ok, it) := LoopSetSize(t, i + 1, ListAt(slots, i), num);
      (ok, slots[i := List(it)])
    case Pointer =>
      if !Points(t, i) then (false, slots)
      else
        var (ok, fi) := InstSetSize(t[i + 1].sub, SubAt(slots, i), num, 0);
        (ok, slots[i := Sub(fi)])
    case _ => (false, slots)
  }

  /** IterSetSize: the first element that takes the size, or a new one if there may be more. */
  function LoopSetSize(t: Template, i: int, it: Loop, num: int): (r: (bool, Loop))
    decreases t, 1, 1
  {
    if !(0 <= i < |t|) then (false, it)
    else match t[i]
      case Barray =>
        var (ok, slots) := ElemsSetSize(t, i, it.slots, 0, it.max, num);
        if ok then (true, it.(slots := slots))
        else if it.exp then (true, it.(slots := Append(slots, it.max, Size(num)), max := it.max + 1))
        else (false, it.(slots := slots))
      case Pointer =>
        if !Points(t, i) then (false, it)
        else
          var (ok, slots) := ElemsSetSize(t, i, it.slots, 0, it.max, num);
          if ok then (true, it.(slots := slots))
          else if it.exp then
            var (ok2, fi) := InstSetSize(t[i + 1].sub, FreshInst(), num, 0);
            (ok2, it.(slots := Append(slots, it.max, Sub(fi)), max := it.max + 1))
          else (false, it.(slots := slots))
      case _ => (false, it)
  }

  /** The loop of IterSetSize over the elements there are. */
  function ElemsSetSize(t: Template, i: int, slots: map<int, Slot>, k: int, max: int, num: int): (r: (bool, map<int, Slot>))
    requires 0 <= i < |t|
    decreases t, 1, 0, max - k
  {
    if k >= max then (false, slots)
    else
      var (ok, slots1) := ElemSetSize(t, i, slots, k, num);
      if ok then (true, slots1) else ElemsSetSize(t, i, slots1, k + 1, max, num)
  }

  function ElemSetSize(t: Template, i: int, slots: map<int, Slot>, k: int, num: int): (r: (bool, map<int, Slot>))
    requires 0 <= i < |t|
    decreases t, 0
  {
    match t[i]
    case Barray => if SizeAt(slots, k) == NO_VALUE then (true, slots[k := Size(num)]) else (false, slots)
    case Pointer =>
      if !Points(t, i) then (false, slots)
      else
        var (ok, fi) := InstSetSize(t[i + 1].sub, SubAt(slots, k), num, 0);
        (ok, slots[k := Sub(fi)])
    case _ => (false, slots)
  }

  // The sizes still to be given for a document.

  /** What the chain holds for a record or an element. */
  datatype View = View(size: int, fi: Inst, it: Loop)

  function ViewAt(slots: map<int, Slot>, k: int): View {
    View(SizeAt(slots, k), SubAt(slots, k), ListAt(slots, k))
  }

  ghost predicate SizeSets(size: int, f: Field) {
    size == NO_VALUE || size == |BytesOf(f)|
  }

  /** What is set agrees with the document. */
  ghost predicate ElemSets(t: Template, i: int, v: View, f: Field)
    decreases t, 1
  {
    0 <= i < |t| &&
    match t[i]
    case Bits(_) => true
    case Barray => SizeSets(v.size, f)
    case Pointer => Points(t, i) && Sets(t[i + 1].sub, v.fi, FieldsOf(f))
    case _ => false
  }

  ghost predicate ListSets(t: Template, i: int, it: Loop, es: seq<Field>)
    decreases t, 2
  {
    && 0 <= it.max <= |es| && (!it.exp ==> it.max == |es|)
    && forall k :: 0 <= k < it.max ==> ElemSets(t, i, ViewAt(it.slots, k), es[k])
  }

  ghost predicate ItemSets(t: Template, v: View, d: seq<Field>, i: int)
    requires 0 <= i < |t|
    decreases t, 3
  {
    match t[i]
    case Barray => SizeSets(v.size, FieldAt(d, i))
    case Iter => ListSets(t, i + 1, v.it, ElemsOf(FieldAt(d, i)))
    case Pointer => Points(t, i) && Sets(t[i + 1].sub, v.fi, FieldsOf(FieldAt(d, i)))
    case _ => true
  }

  ghost predicate Sets(t: Template, s: Inst, d: seq<Field>)
    decreases t, 4
  {
    forall i :: Boundary(t, i) && i < |t| - 1 ==> ItemSets(t, ViewAt(s.slots, i), d, i)
  }

  /** What the next calls of FrameMgrSetSize will fill in, in order: the sizes of the byte
      strings that have none, and GROW where a list would take a new element instead. */
  const GROW: int := -2

  function HoleOf(size: int, f: Field): seq<int> {
    if size == NO_VALUE then [|BytesOf(f)|] else []
  }

  function ElemHoles(t: Template, i: int, v: View, f: Field): seq<int>
    decreases t, 1
  {
    if !(0 <= i < |t|) then []
    else match t[i]
      case Barray => HoleOf(v.size, f)
      case Pointer => if Points(t, i) then Holes(t[i + 1].sub, v.fi.slots, FieldsOf(f), 0) else []
      case _ => []
  }

  function ElemsHoles(t: Template, i: int, slots: map<int, Slot>, k: int, max: int, es: seq<Field>): seq<int>
    decreases t, 2, max - k
  {
    if !(0 <= k < max <= |es|) then []
    else ElemHoles(t, i, ViewAt(slots, k), es[k]) + ElemsHoles(t, i, slots, k + 1, max, es)
  }

  function ListHoles(t: Template, i: int, it: Loop, es: seq<Field>): seq<int>
    decreases t, 3
  {
    ElemsHoles(t, i, it.slots, 0, it.max, es) + if it.exp && 0 <= i < |t| && !t[i].Bits? then [GROW] else []
  }

  function ItemHoles(t: Template, v: View, d: seq<Field>, i: int): seq<int>
    requires 0 <= i < |t|
    decreases t, 4
  {
    match t[i]
    case Barray => HoleOf(v.size, FieldAt(d, i))
    case Iter => ListHoles(t, i + 1, v.it, ElemsOf(FieldAt(d, i)))
    case Pointer => if Points(t, i) then Holes(t[i + 1].sub, v.fi.slots, FieldsOf(FieldAt(d, i)), 0) else []
    case _ => []
  }

  function Holes(t: Template, slots: map<int, Slot>, d: seq<Field>, i: int): seq<int>
    decreases t, 5, |t| - i
  {
    if !(0 <= i < |t|) || t[i].Eol? || !(i < Increment(t, i)) then []
    else ItemHoles(t, ViewAt(slots, i), d, i) + Holes(t, slots, d, Increment(t, i))
  }

  // No cursor moves.

  ghost predicate ElemSame(t: Template, i: int, v: View, v': View)
    decreases t, 1
  {
    Points(t, i) ==> v'.fi == v.fi || Same(t[i + 1].sub, v.fi, v'.fi)
  }

  ghost predicate LoopSame(t: Template, i: int, it: Loop, it': Loop)
    decreases t, 2
  {
    && it'.cur == it.cur && it'.exp == it.exp && it'.max == it.max && it'.start == it.start
    && forall k :: ElemSame(t, i, ViewAt(it.slots, k), ViewAt(it'.slots, k))
  }

  ghost predicate ItemSame(t: Template, v: View, v': View, i: int)
    requires 0 <= i < |t|
    decreases t, 3
  {
    match t[i]
    case Iter => v'.it == v.it || LoopSame(t, i + 1, v.it, v'.it)
    case _ => ElemSame(t, i, v, v')
  }

  /** The two instances differ in sizes alone. */
  ghost predicate Same(t: Template, s: Inst, s': Inst)
    decreases t, 4
  {
    s'.cur == s.cur && forall i :: 0 <= i < |t| ==> ItemSame(t, ViewAt(s.slots, i), ViewAt(s'.slots, i), i)
  }

  // FrameMgrSetSize fills the first hole.

  ghost predicate Fills(ok: bool, holes: seq<int>, holes': seq<int>) {
    ok == (holes != []) && holes' == if ok then holes[1..] else []
  }

  /** The call gives the size the first hole asks for; no list grows. */
  predicate Asks(holes: seq<int>, num: int) {
    holes != [] ==> holes[0] == num
  }

  lemma FillsFirst(ok: bool, a: seq<int>, a': seq<int>, b: seq<int>)
    requires Fills(ok, a, a') && ok
    ensures Fills(true, a + b, a' + b)
  {
    assert (a + b)[1..] == a[1..] + b;
  }

  lemma FillsSecond(ok1: bool, a: seq<int>, a': seq<int>, ok: bool, b: seq<int>, b': seq<int>)
    requires Fills(ok1, a, a') && !ok1 && Fills(ok, b, b')
    ensures Fills(ok, a + b, a' + b')
  {
    assert a + b == b && a' + b' == b';
  }

  ghost predicate UnchangedOutside(slots: map<int, Slot>, slots': map<int, Slot>, lo: int, hi: int) {
    forall j {:trigger ViewAt(slots', j)} :: !(lo <= j < hi) ==> ViewAt(slots', j) == ViewAt(slots, j)
  }

  lemma {:induction false} ElemSetSizeIs(t: Template, i: int, slots: map<int, Slot>, k: int, f: Field, num: nat,
                                         ok: bool, slots': map<int, Slot>)
    requires CodecOk(t) && 0 <= i < |t| - 1 && ElemSets(t, i, ViewAt(slots, k), f)
    requires Asks(ElemHoles(t, i, ViewAt(slots, k), f), num) && (ok, slots') == ElemSetSize(t, i, slots, k, num)
    ensures ElemSets(t, i, ViewAt(slots', k), f)
    ensures Fills(ok, ElemHoles(t, i, ViewAt(slots, k), f), ElemHoles(t, i, ViewAt(slots', k), f))
    ensures ElemSame(t, i, ViewAt(slots, k), ViewAt(slots', k))
    ensures UnchangedOutside(slots, slots', k, k + 1)
    decreases t, 1
  {
    if t[i].Pointer? {
      PointsAt(t, i);
      var u, fi := t[i + 1].sub, SubAt(slots, k);
      var (ok1, fi') := InstSetSize(u, fi, num, 0);
      StartBoundary(u);
      InstSetSizeIs(u, fi, FieldsOf(f), num, 0, ok1, fi');
    }
  }

  lemma {:induction false} ElemsHolesSame(t: Template, i: int, slots: map<int, Slot>, slots': map<int, Slot>,
                                          k: int, max: int, es: seq<Field>)
    requires forall j :: k <= j < max ==> ViewAt(slots', j) == ViewAt(slots, j)
    ensures ElemsHoles(t, i, slots', k, max, es) == ElemsHoles(t, i, slots, k, max, es)
    decreases max - k
  {
    if 0 <= k < max <= |es| {
      ElemsHolesSame(t, i, slots, slots', k + 1, max, es);
    }
  }

  lemma {:induction false} ElemsSetSizeIs(t: Template, i: int, slots: map<int, Slot>, k: int, max: int, es: seq<Field>,
                                          num: nat, ok: bool, slots': map<int, Slot>)
    requires CodecOk(t) && 0 <= i < |t| - 1 && 0 <= k <= max <= |es|
    requires forall j :: k <= j < max ==> ElemSets(t, i, ViewAt(slots, j), es[j])
    requires Asks(ElemsHoles(t, i, slots, k, max, es), num)
    requires (ok, slots') == ElemsSetSize(t, i, slots, k, max, num)
    ensures forall j :: k <= j < max ==> ElemSets(t, i, ViewAt(slots', j), es[j]) && ElemSame(t, i, ViewAt(slots, j), ViewAt(slots', j))
    ensures Fills(ok, ElemsHoles(t, i, slots, k, max, es), ElemsHoles(t, i, slots', k, max, es))
    ensures UnchangedOutside(slots, slots', k, max)
    decreases t, 2, max - k
  {
    if k < max {
      var (ok1, slots1) := ElemSetSize(t, i, slots, k, num);
      ElemSetSizeIs(t, i, slots, k, es[k], num, ok1, slots1);
      ElemsHolesSame(t, i, slots, slots1, k + 1, max, es);
      var here, there := ElemHoles(t, i, ViewAt(slots, k), es[k]), ElemsHoles(t, i, slots, k + 1, max, es);
      if ok1 {
        FillsFirst(ok1, here, ElemHoles(t, i, ViewAt(slots1, k), es[k]), there);
      } else {
        ElemsSetSizeIs(t, i, slots1, k + 1, max, es, num, ok, slots');
        FillsSecond(ok1, here, ElemHoles(t, i, ViewAt(slots1, k), es[k]), ok, there, ElemsHoles(t, i, slots', k + 1, max, es));
      }
    }
  }

  lemma {:induction false} LoopSetSizeIs(t: Template, i: int, it: Loop, es: seq<Field>, num: nat, ok: bool, it': Loop)
    requires CodecOk(t) && 0 <= i < |t| - 1 && ListSets(t, i, it, es)
    requires Asks(ListHoles(t, i, it, es), num) && (ok, it') == LoopSetSize(t, i, it, num)
    ensures ListSets(t, i, it', es) && Fills(ok, ListHoles(t, i, it, es), ListHoles(t, i, it', es))
    ensures LoopSame(t, i, it, it')
    decreases t, 3
  {
    var holes := ElemsHoles(t, i, it.slots, 0, it.max, es);
    var grow := if it.exp && !t[i].Bits? then [GROW] else [];
    if t[i].Pointer? {
      PointsAt(t, i);
    }
    if t[i].Barray? || t[i].Pointer? {
      assert holes == [] ==> (holes + grow) == grow;
      var (ok1, slots1) := ElemsSetSize(t, i, it.slots, 0, it.max, num);
      ElemsSetSizeIs(t, i, it.slots, 0, it.max, es, num, ok1, slots1);
      if ok1 {
        FillsFirst(ok1, holes, ElemsHoles(t, i, slots1, 0, it.max, es), grow);
      }
    } else {
      NoHoles(t, i, it.slots, 0, it.max, es);
    }
  }

  lemma {:induction false} NoHoles(t: Template, i: int, slots: map<int, Slot>, k: int, max: int, es: seq<Field>)
    requires 0 <= i < |t| && !t[i].Barray? && !t[i].Pointer?
    ensures ElemsHoles(t, i, slots, k, max, es) == []
    decreases max - k
  {
    if 0 <= k < max <= |es| {
      NoHoles(t, i, slots, k + 1, max, es);
    }
  }

  lemma {:induction false} ItemSetSizeIs(t: Template, slots: map<int, Slot>, d: seq<Field>, i: int, num: nat,
                                         ok: bool, slots': map<int, Slot>)
    requires CodecOk(t) && Boundary(t, i) && i < |t| - 1 && ItemSets(t, ViewAt(slots, i), d, i)
    requires Asks(ItemHoles(t, ViewAt(slots, i), d, i), num) && (ok, slots') == ItemSetSize(t, slots, num, i)
    ensures ItemSets(t, ViewAt(slots', i), d, i)
    ensures Fills(ok, ItemHoles(t, ViewAt(slots, i), d, i), ItemHoles(t, ViewAt(slots', i), d, i))
    ensures ItemSame(t, ViewAt(slots, i), ViewAt(slots', i), i)
    ensures UnchangedOutside(slots, slots', i, i + 1)
    decreases t, 4
  {
    match t[i] {
      case Iter =>
        assert RecordOk(t, i) && RecordCodes(t, i);
        var it, es := ListAt(slots, i), ElemsOf(FieldAt(d, i));
        var (ok1, it1) := LoopSetSize(t, i + 1, it, num);
        ListItemSets(t, slots, d, i, num, it, ok1, it1, slots');
        LoopSetSizeIs(t, i + 1, it, es, num, ok1, it1);
        ListItemIs(t, ViewAt(slots', i), d, i, es);
      case Pointer =>
        PointsAt(t, i);
        var (ok1, fi1) := InstSetSize(t[i + 1].sub, SubAt(slots, i), num, 0);
        StartBoundary(t[i + 1].sub);
        InstSetSizeIs(t[i + 1].sub, SubAt(slots, i), FieldsOf(FieldAt(d, i)), num, 0, ok1, fi1);
      case _ =>
    }
  }

  lemma {:induction false} ListItemSets(t: Template, slots: map<int, Slot>, d: seq<Field>, i: int, num: nat, it: Loop, ok: bool, it': Loop,
                                        slots': map<int, Slot>)
    requires 0 <= i < |t| && t[i].Iter? && it == ListAt(slots, i) && (ok, it') == LoopSetSize(t, i + 1, it, num)
    ensures ItemSetSize(t, slots, num, i) == (ok, slots[i := List(it')])
    ensures ItemSets(t, ViewAt(slots, i), d, i) == ListSets(t, i + 1, it, ElemsOf(FieldAt(d, i)))
    ensures ItemHoles(t, ViewAt(slots, i), d, i) == ListHoles(t, i + 1, it, ElemsOf(FieldAt(d, i)))
    ensures slots' == slots[i := List(it')] ==> ViewAt(slots', i).it == it' && UnchangedOutside(slots, slots', i, i + 1)
  {
  }

  lemma {:induction false} ListItemIs(t: Template, v: View, d: seq<Field>, i: int, es: seq<Field>)
    requires 0 <= i < |t| && t[i].Iter? && es == ElemsOf(FieldAt(d, i)) && ListSets(t, i + 1, v.it, es)
    ensures ItemSets(t, v, d, i) && ItemHoles(t, v, d, i) == ListHoles(t, i + 1, v.it, es)
  {
  }

  lemma {:induction false} HolesSame(t: Template, slots: map<int, Slot>, slots': map<int, Slot>, d: seq<Field>, i: int)
    requires forall j :: i <= j < |t| ==> ViewAt(slots', j) == ViewAt(slots, j)
    ensures Holes(t, slots', d, i) == Holes(t, slots, d, i)
    decreases |t| - i
  {
    if 0 <= i < |t| && !t[i].Eol? && i < Increment(t, i) {
      HolesSame(t, slots, slots', d, Increment(t, i));
    }
  }

  lemma SameStep(t: Template, s: Inst, slots1: map<int, Slot>, s': Inst, i: int, next: int)
    requires CodecOk(t) && 0 <= i < next <= |t| && s'.cur == s.cur
    requires ItemSame(t, ViewAt(s.slots, i), ViewAt(slots1, i), i) && UnchangedOutside(s.slots, slots1, i, i + 1)
    requires Same(t, s.(slots := slots1), s') && UnchangedOutside(slots1, s'.slots, next, |t|)
    ensures Same(t, s, s') && UnchangedOutside(s.slots, s'.slots, i, |t|)
  {
    forall j | 0 <= j < |t| ensures ItemSame(t, ViewAt(s.slots, j), ViewAt(s'.slots, j), j) {
      assert ItemSame(t, ViewAt(slots1, j), ViewAt(s'.slots, j), j);
      if j == i {
        assert ViewAt(s'.slots, j) == ViewAt(slots1, j);
      } else {
        assert ViewAt(slots1, j) == ViewAt(s.slots, j);
      }
    }
  }

  lemma NoneBetween(t: Template, i: int, j: int)
    requires CodecOk(t) && Boundary(t, i) && i < j < |t| - 1 && Boundary(t, j)
    ensures Increment(t, i) <= j
  {
    assert RecordOk(t, i) && RecordCodes(t, i) && RecordOk(t, i + 1) && RecordCodes(t, i + 1);
  }

  /** The main property: the size goes to the first byte string, in the order of the
      document, that had none; a call that finds none changes no size. */
  lemma {:induction false} InstSetSizeIs(t: Template, s: Inst, d: seq<Field>, num: nat, i: int, ok: bool, s': Inst)
    requires CodecOk(t) && Boundary(t, i) && Sets(t, s, d)
    requires Asks(Holes(t, s.slots, d, i), num) && (ok, s') == InstSetSize(t, s, num, i)
    ensures Sets(t, s', d) && Fills(ok, Holes(t, s.slots, d, i), Holes(t, s'.slots, d, i))
    ensures Same(t, s, s') && UnchangedOutside(s.slots, s'.slots, i, |t|)
    decreases t, 5, |t| - i
  {
    if i < |t| - 1 {
      var next := Increment(t, i);
      assert RecordOk(t, i) && ItemSets(t, ViewAt(s.slots, i), d, i);
      DecrementUndoesIncrement(t, i);
      var (ok1, slots1) := ItemSetSize(t, s.slots, num, i);
      var here, there := ItemHoles(t, ViewAt(s.slots, i), d, i), Holes(t, s.slots, d, next);
      ItemSetSizeIs(t, s.slots, d, i, num, ok1, slots1);
      HolesSame(t, s.slots, slots1, d, next);
      var s1 := s.(slots := slots1);
      SetsUpdate(t, s, d, i, s1);
      if ok1 {
        FillsFirst(ok1, here, ItemHoles(t, ViewAt(slots1, i), d, i), there);
        SameItself(t, s1);
      } else {
        InstSetSizeIs(t, s1, d, num, next, ok, s');
        FillsSecond(ok1, here, ItemHoles(t, ViewAt(slots1, i), d, i), ok, there, Holes(t, s'.slots, d, next));
      }
      SameStep(t, s, slots1, s', i, next);
    } else {
      SameItself(t, s);
    }
  }

  lemma SameItself(t: Template, s: Inst)
    ensures Same(t, s, s)
  {
  }

  /** A call that fails has been through every list and inner frame. */
  lemma {:induction false} InstSetSizeVisits(t: Template, s: Inst, num: int, i: int)
    requires CodecOk(t) && Boundary(t, i) && !InstSetSize(t, s, num, i).0
    ensures forall j :: j in s.slots ==> j in InstSetSize(t, s, num, i).1.slots
    ensures forall j :: i <= j < |t| - 1 && Boundary(t, j) && (t[j].Iter? || t[j].Pointer?) ==> j in InstSetSize(t, s, num, i).1.slots
    decreases |t| - i
  {
    if i < |t| - 1 {
      assert RecordOk(t, i);
      DecrementUndoesIncrement(t, i);
      InstSetSizeVisits(t, s.(slots := ItemSetSize(t, s.slots, num, i).1), num, Increment(t, i));
      if t[i].Pointer? {
        PointsAt(t, i);
      }
      forall j | i < j < |t| - 1 && Boundary(t, j) ensures Increment(t, i) <= j {
        NoneBetween(t, i, j);
      }
    }
  }

  lemma SetsUpdate(t: Template, s: Inst, d: seq<Field>, i: int, s': Inst)
    requires Sets(t, s, d) && 0 <= i < |t| && UnchangedOutside(s.slots, s'.slots, i, i + 1)
    requires ItemSets(t, ViewAt(s'.slots, i), d, i)
    ensures Sets(t, s', d)
  {
    forall j | Boundary(t, j) && j < |t| - 1 ensures ItemSets(t, ViewAt(s'.slots, j), d, j) {
      assert ItemSets(t, ViewAt(s.slots, j), d, j);
    }
  }
}
