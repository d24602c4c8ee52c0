/** The frame templates of the XIM wire protocol (src/lib/IMdkit/FrameMgr.h,
    i18nIMProto.c) and the sizes of the frames they describe. */
module FrameTemplate {

  type Byte = b: int | 0 <= b < 256

  /** One record of a template.  Padding fills the `number` items before it up to a
      multiple of `unit` bytes; a counter speaks of the list `offset` records on. */
  datatype Rec =
    | Bits(width: int)
    | Counter(width: int, isByteLen: bool, offset: int)
    | Barray
    | Iter
    | Pointer
    | PtrItem(sub: Template)
    | Padding(unit: int, number: int)
    | Eol

  type Template = seq<Rec>

  /** _FrameInstIncrement: the record of the next item. */
  function Increment(t: Template, i: int): int
    requires 0 <= i
    decreases |t| - i
  {
    if i >= |t| then -1
    else match t[i]
      case Bits(_) | Counter(_, _, _) | Barray | Padding(_, _) => i + 1
      case Pointer => i + 2
      case Iter => Increment(t, i + 1)
      case _ => -1
  }

  /** The loop of _FrameInstDecrement: back over the ITER records that lead to i. */
  function FirstIter(t: Template, i: int): int
    requires -1 <= i < |t|
    ensures 0 <= FirstIter(t, i) <= i + 1
  {
    if i < 0 then 0 else if t[i] != Iter then i + 1 else FirstIter(t, i - 1)
  }

  /** _FrameInstDecrement: the record of the item before i. */
  function Decrement(t: Template, i: int): (r: int)
    requires 0 <= i <= |t|
    ensures r < i || i == 0
  {
    if i == 0 then -1
    else if i == 1 then 0
    else match t[i - 2]
      case Bits(_) | Counter(_, _, _) | Barray | Padding(_, _) | PtrItem(_) => i - 1
      case Pointer | Iter => FirstIter(t, i - 3)
      case Eol => -1
  }

  /** A record an item can start with: not a pointer's target, not what a list repeats. */
  predicate Boundary(t: Template, i: int) {
    0 <= i < |t| && !t[i].PtrItem? && (i > 0 ==> !t[i - 1].Iter? && !t[i - 1].Pointer?)
  }

  predicate RecordOk(t: Template, i: int)
    requires 0 <= i < |t| - 1
  {
    && t[i] != Eol
    && (t[i].Pointer? <==> t[i + 1].PtrItem?)
    && (t[i].Iter? ==> t[i + 1].Bits? || t[i + 1].Barray? || t[i + 1].Iter? || t[i + 1].Pointer?)
    && (i == 0 ==> !t[0].PtrItem?)
  }

  /** Pointers have targets, lists repeat a datum, a pointer or a list, and the only EOL ends it. */
  predicate ShapeOk(t: Template) {
    |t| > 0 && t[|t| - 1] == Eol && forall i :: 0 <= i < |t| - 1 ==> RecordOk(t, i)
  }

  lemma {:induction false} IncrementBody(t: Template, i: int)
    requires ShapeOk(t) && 0 <= i < |t| - 1 && !t[i].PtrItem?
    ensures i < Increment(t, i) <= |t| - 1 && Boundary(t, Increment(t, i))
    ensures t[i].Iter? ==> 2 <= Increment(t, i) && FirstIter(t, Increment(t, i) - 3) == FirstIter(t, i - 1)
    ensures t[i].Iter? ==> t[Increment(t, i) - 2].Iter? || t[Increment(t, i) - 2].Pointer?
    decreases |t| - i
  {
    assert RecordOk(t, i) && (i + 1 < |t| - 1 ==> RecordOk(t, i + 1));
    if t[i].Iter? {
      IncrementBody(t, i + 1);
      assert FirstIter(t, i) == FirstIter(t, i - 1);
      assert t[i + 1].Pointer? ==> Increment(t, i) == i + 3;
      assert t[i + 1].Bits? || t[i + 1].Barray? ==> Increment(t, i) == i + 2;
    }
  }

  /** Stepping back undoes stepping on, at every item of every template. */
  lemma DecrementUndoesIncrement(t: Template, i: int)
    requires ShapeOk(t) && Boundary(t, i) && i < |t| - 1
    ensures i < Increment(t, i) < |t| && Boundary(t, Increment(t, i))
    ensures Decrement(t, Increment(t, i)) == i
  {
    assert RecordOk(t, i) && (i > 0 ==> RecordOk(t, i - 1));
    IncrementBody(t, i);
    assert t[i].Iter? ==> FirstIter(t, i - 1) == i;
    assert t[i].Pointer? ==> FirstIter(t, i - 1) == i;
  }

  lemma {:induction false} ChainIncrement(t: Template, i: int)
    requires -1 <= i < |t| - 1
    ensures Increment(t, FirstIter(t, i)) == Increment(t, i + 1)
  {
    if i >= 0 && t[i].Iter? {
      ChainIncrement(t, i - 1);
    }
  }

  lemma {:induction false} ChainBoundary(t: Template, i: int)
    requires ShapeOk(t) && -1 <= i < |t| - 1 && t[i + 1] != Eol && !t[i + 1].PtrItem?
    ensures Boundary(t, FirstIter(t, i))
  {
    assert i >= 0 ==> RecordOk(t, i);
    if i >= 0 && t[i].Iter? {
      ChainBoundary(t, i - 1);
    }
  }

  /** And stepping on undoes stepping back. */
  lemma IncrementUndoesDecrement(t: Template, i: int)
    requires ShapeOk(t) && Boundary(t, i) && i > 0
    ensures 0 <= Decrement(t, i) < i && Boundary(t, Decrement(t, i))
    ensures Increment(t, Decrement(t, i)) == i
  {
    assert RecordOk(t, 0) && RecordOk(t, i - 1) && (i > 1 ==> RecordOk(t, i - 2));
    if i > 1 && (t[i - 2].Pointer? || t[i - 2].Iter?) {
      ChainIncrement(t, i - 3);
      ChainBoundary(t, i - 3);
      assert t[i - 2].Iter? ==> Increment(t, i - 1) == i;
    }
  }

  /** What a frame carries, record by record: a number at Bits, a byte string at Barray,
      the elements at Iter, the fields of the inner frame at Pointer, nothing elsewhere. */
  datatype Field = Num(v: int) | Bytes(b: seq<Byte>) | Elems(es: seq<Field>) | Fields(fs: seq<Field>) | Nothing

  function FieldAt(d: seq<Field>, i: int): Field {
    if 0 <= i < |d| then d[i] else Nothing
  }

  function BytesOf(f: Field): seq<Byte> {
    if f.Bytes? then f.b else []
  }

  function ElemsOf(f: Field): seq<Field> {
    if f.Elems? then f.es else []
  }

  function FieldsOf(f: Field): seq<Field> {
    if f.Fields? then f.fs else []
  }

  function PadLen(unit: int, size: int): int {
    if unit <= 0 then 0 else (unit - size % unit) % unit
  }

  /** The bytes of one list element, for the record that says what the list repeats. */
  function ElemSize(t: Template, i: int, f: Field): nat
    decreases t, 1, 0, 0
  {
    if !(0 <= i < |t|) then 0
    else match t[i]
      case Bits(w) => if w >= 0 then w else 0
      case Barray => |BytesOf(f)|
      case Pointer => if i + 1 < |t| && t[i + 1].PtrItem? then SizeFrom(t[i + 1].sub, FieldsOf(f), 0) else 0
      case _ => 0
  }

  function ElemsSize(t: Template, i: int, es: seq<Field>): nat
    decreases t, 2, |es|, 0
  {
    if es == [] then 0 else ElemSize(t, i, es[0]) + ElemsSize(t, i, es[1..])
  }

  /** The bytes of the item at record i. */
  function ItemSize(t: Template, d: seq<Field>, i: int): nat
    decreases t, 3, i, 1
  {
    if !(0 <= i < |t|) then 0
    else match t[i]
      case Counter(w, _, _) => if w >= 0 then w else 0
      case Padding(unit, number) => PadLen(unit, BackSize(t, d, i, number))
      case Iter => ElemsSize(t, i + 1, ElemsOf(FieldAt(d, i)))
      case _ => ElemSize(t, i, FieldAt(d, i))
  }

  /** The bytes of the n items before record i. */
  function BackSize(t: Template, d: seq<Field>, i: int, n: int): nat
    requires 0 <= i <= |t|
    decreases t, 3, i, 0
  {
    var j := Decrement(t, i);
    if n <= 0 || j < 0 then 0 else ItemSize(t, d, j) + BackSize(t, d, j, n - 1)
  }

  /** The bytes of the frame from record i on. */
  function SizeFrom(t: Template, d: seq<Field>, i: int): nat
    decreases t, 4, |t| - i, 0
  {
    if !(0 <= i < |t|) || !(i < Increment(t, i)) then 0
    else ItemSize(t, d, i) + SizeFrom(t, d, Increment(t, i))
  }

  /** The record n items before record i, or -1. */
  function Back(t: Template, i: int, n: int): (r: int)
    requires 0 <= i <= |t|
    ensures r <= i
    decreases i
  {
    if n <= 0 then i
    else if Decrement(t, i) < 0 then -1
    else Back(t, Decrement(t, i), n - 1)
  }

  function AddResidue(r: int, w: int): int {
    if r < 0 || w < 0 then -1 else (r + w) % 4
  }

  /** The length modulo 4 of every frame of the template, worked out from the template
      alone; -1 stands for "it depends on the contents".  r0 is the offset of record i,
      and r1, r2, r3 those of the three items before it. */
  function Scan(t: Template, i: int, r0: int, r1: int, r2: int, r3: int): int
    decreases t, 1, |t| - i
  {
    if !(0 <= i < |t|) then -1
    else match t[i]
      case Eol => r0
      case Bits(w) => Scan(t, i + 1, AddResidue(r0, w), r0, r1, r2)
      case Counter(w, _, _) => Scan(t, i + 1, AddResidue(r0, w), r0, r1, r2)
      case Barray => Scan(t, i + 1, -1, r0, r1, r2)
      case Padding(unit, n) => Scan(t, i + 1, Padded(unit, n, r1, r2, r3), r0, r1, r2)
      case Iter =>
        if i < Increment(t, i) then
          Scan(t, Increment(t, i), if ElemResidue(t, i + 1) == 0 then r0 else -1, r0, r1, r2)
        else -1
      case Pointer => Scan(t, i + 2, AddResidue(r0, ElemResidue(t, i)), r0, r1, r2)
      case _ => -1
  }

  function Padded(unit: int, n: int, r1: int, r2: int, r3: int): int {
    if unit != 4 then -1 else if n == 1 then r1 else if n == 2 then r2 else if n == 3 then r3 else -1
  }

  function ElemResidue(t: Template, i: int): int
    decreases t, 0
  {
    if !(0 <= i < |t|) then -1
    else match t[i]
      case Bits(w) => if w < 0 then -1 else w % 4
      case Pointer => if i + 1 < |t| && t[i + 1].PtrItem? then FrameResidue(t[i + 1].sub) else -1
      case _ => -1
  }

  function FrameResidue(t: Template): int
    decreases t, 2
  {
    Scan(t, 0, 0, -1, -1, -1)
  }

  /** The bytes before record i. */
  function Offset(t: Template, d: seq<Field>, i: int): nat
    requires 0 <= i <= |t|
    decreases i
  {
    var j := Decrement(t, i);
    if j < 0 then 0 else Offset(t, d, j) + ItemSize(t, d, j)
  }

  lemma {:induction false} OffsetPlusRest(t: Template, d: seq<Field>, i: int)
    requires ShapeOk(t) && Boundary(t, i)
    ensures Offset(t, d, i) + SizeFrom(t, d, i) == Offset(t, d, |t| - 1)
    decreases |t| - i
  {
    if i < |t| - 1 {
      DecrementUndoesIncrement(t, i);
      OffsetPlusRest(t, d, Increment(t, i));
    }
  }

  lemma {:induction false} BackSizeIsDifference(t: Template, d: seq<Field>, i: int, n: int)
    requires 0 <= i <= |t| && Back(t, i, n) >= 0
    ensures BackSize(t, d, i, n) == Offset(t, d, i) - Offset(t, d, Back(t, i, n))
    decreases i
  {
    if n > 0 {
      BackSizeIsDifference(t, d, Decrement(t, i), n - 1);
    }
  }

  /** Every frame inside a template, and the template itself, is well shaped. */
  predicate DeepOk(t: Template)
    decreases t
  {
    ShapeOk(t) && forall i :: 0 <= i < |t| ==> (t[i].PtrItem? ==> DeepOk(t[i].sub))
  }

  lemma {:induction false} ElemsAligned(t: Template, i: int, es: seq<Field>)
    requires forall f :: ElemSize(t, i, f) % 4 == 0
    ensures ElemsSize(t, i, es) % 4 == 0
  {
    if es != [] {
      ElemsAligned(t, i, es[1..]);
    }
  }

  lemma {:induction false} ElemResidueSound(t: Template, i: int, f: Field)
    requires DeepOk(t) && ElemResidue(t, i) >= 0
    ensures ElemSize(t, i, f) % 4 == ElemResidue(t, i)
    decreases t, 0, 0
  {
    if t[i].Pointer? {
      assert t[i + 1].PtrItem?;
      FrameResidueSound(t[i + 1].sub, FieldsOf(f));
    }
  }

  lemma {:induction false} ListAligned(t: Template, i: int, es: seq<Field>)
    requires DeepOk(t) && ElemResidue(t, i) == 0
    ensures ElemsSize(t, i, es) % 4 == 0
    decreases t, 1, 0
  {
    forall f ensures ElemSize(t, i, f) % 4 == 0 {
      ElemResidueSound(t, i, f);
    }
    ElemsAligned(t, i, es);
  }

  lemma PadAligns(a: int, b: int)
    ensures (a + PadLen(4, a - b)) % 4 == b % 4
  {
  }

  lemma AddAligns(o: int, s: int, r: int, w: int)
    requires r >= 0 && w >= 0 && o % 4 == r && s % 4 == w % 4
    ensures (o + s) % 4 == AddResidue(r, w)
  {
  }

  /** r, unless unknown, is the offset modulo 4 of the record k items before i. */
  ghost predicate Known(t: Template, d: seq<Field>, i: int, k: int, r: int)
    requires 0 <= i <= |t|
  {
    r >= 0 ==> Back(t, i, k) >= 0 && Offset(t, d, Back(t, i, k)) % 4 == r
  }

  lemma WidthItem(t: Template, d: seq<Field>, j: int)
    requires 0 <= j < |t| && (t[j].Bits? || t[j].Counter?) && t[j].width >= 0
    ensures ItemSize(t, d, j) == t[j].width
  {
  }

  lemma PaddingSound(t: Template, d: seq<Field>, j: int)
    requires 0 <= j < |t| && t[j].Padding? && t[j].unit == 4 && Back(t, j, t[j].number) >= 0
    ensures (Offset(t, d, j) + ItemSize(t, d, j)) % 4 == Offset(t, d, Back(t, j, t[j].number)) % 4
  {
    BackSizeIsDifference(t, d, j, t[j].number);
    PadAligns(Offset(t, d, j), Offset(t, d, Back(t, j, t[j].number)));
  }

  /** The residue the analysis passes on after the item at i. */
  lemma WidthSound(t: Template, d: seq<Field>, i: int, r0: int)
    requires 0 <= i < |t| && (t[i].Bits? || t[i].Counter?) && AddResidue(r0, t[i].width) >= 0 && Offset(t, d, i) % 4 == r0
    ensures (Offset(t, d, i) + ItemSize(t, d, i)) % 4 == AddResidue(r0, t[i].width)
  {
    WidthItem(t, d, i);
    AddAligns(Offset(t, d, i), ItemSize(t, d, i), r0, t[i].width);
  }

  function After(t: Template, i: int, r0: int, r1: int, r2: int, r3: int): int
    requires 0 <= i < |t|
  {
    match t[i]
    case Bits(w) => AddResidue(r0, w)
    case Counter(w, _, _) => AddResidue(r0, w)
    case Padding(unit, n) => Padded(unit, n, r1, r2, r3)
    case Iter => if ElemResidue(t, i + 1) == 0 then r0 else -1
    case Pointer => AddResidue(r0, ElemResidue(t, i))
    case _ => -1
  }

  lemma {:induction false} AfterSound(t: Template, d: seq<Field>, i: int, r0: int, r1: int, r2: int, r3: int)
    requires DeepOk(t) && 0 <= i < |t| - 1 && After(t, i, r0, r1, r2, r3) >= 0
    requires Known(t, d, i, 0, r0) && Known(t, d, i, 1, r1) && Known(t, d, i, 2, r2) && Known(t, d, i, 3, r3)
    ensures (Offset(t, d, i) + ItemSize(t, d, i)) % 4 == After(t, i, r0, r1, r2, r3)
    decreases t, 2, 0
  {
    match t[i]
    case Padding(_, _) =>
      PaddingSound(t, d, i);
    case Iter =>
      ListAligned(t, i + 1, ElemsOf(FieldAt(d, i)));
    case Pointer =>
      ElemResidueSound(t, i, FieldAt(d, i));
      AddAligns(Offset(t, d, i), ItemSize(t, d, i), r0, ElemResidue(t, i));
    case Bits(_) =>
      WidthSound(t, d, i, r0);
    case Counter(_, _, _) =>
      WidthSound(t, d, i, r0);
    case _ =>
  }

  lemma {:induction false} ScanSound(t: Template, d: seq<Field>, i: int, r0: int, r1: int, r2: int, r3: int)
    requires DeepOk(t) && Boundary(t, i) && Scan(t, i, r0, r1, r2, r3) >= 0
    requires Known(t, d, i, 0, r0) && Known(t, d, i, 1, r1) && Known(t, d, i, 2, r2) && Known(t, d, i, 3, r3)
    ensures Offset(t, d, |t| - 1) % 4 == Scan(t, i, r0, r1, r2, r3)
    decreases t, 3, |t| - i
  {
    if i < |t| - 1 {
      assert RecordOk(t, i);
      DecrementUndoesIncrement(t, i);
      var j, r := Increment(t, i), After(t, i, r0, r1, r2, r3);
      assert Scan(t, i, r0, r1, r2, r3) == Scan(t, j, r, r0, r1, r2);
      if r >= 0 {
        AfterSound(t, d, i, r0, r1, r2, r3);
      }
      ScanSound(t, d, j, r, r0, r1, r2);
    }
  }

  /** If the analysis finds a residue, the length of every frame of the template has it,
      whatever the string lengths and list counts are. */
  lemma {:induction false} FrameResidueSound(t: Template, d: seq<Field>)
    requires DeepOk(t) && FrameResidue(t) >= 0
    ensures SizeFrom(t, d, 0) % 4 == FrameResidue(t)
    decreases t, 4, 0
  {
    assert |t| > 1 ==> RecordOk(t, 0);
    OffsetPlusRest(t, d, 0);
    ScanSound(t, d, 0, 0, -1, -1, -1);
  }
}
