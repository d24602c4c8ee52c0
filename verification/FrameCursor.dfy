/** The cursor of the template interpreter: frame instances, list iterators and the size
    computation (src/lib/IMdkit/FrameMgr.c). */
module FrameCursor {
  import opened FrameTemplate

  const NO_VALUE: int := -1

  /** The extra data chained to a record: the size of a byte string, the instance of an
      inner frame, the iterator of a list.  A chain is searched by record number. */
  datatype Slot = Size(num: int) | Sub(fi: Inst) | List(it: Loop)

  /** FrameInst, the template apart: the current record and the chain. */
  datatype Inst = Inst(cur: int, slots: map<int, Slot>)

  /** Iter: `max` elements, more on demand while `exp`; `start` asks to report the first token. */
  datatype Loop = Loop(max: int, exp: bool, cur: int, slots: map<int, Slot>, start: bool)

  /** What the cursor reports of the next token: its kind and width, the length known for
      a byte string or a padding, and of a counter also the record of its list. */
  datatype Info =
    | BitsInfo(w: int)
    | CounterInfo(w: int, at: int, length: int)
    | BarrayInfo(num: int)
    | PadInfo(num: int)
    | End
    | Stuck

  /** FrameInstInit and IterInit. */
  function FreshInst(): Inst {
    Inst(0, map[])
  }

  function FreshLoop(): Loop {
    Loop(0, true, 0, map[], false)
  }

  function SizeAt(slots: map<int, Slot>, k: int): int {
    if k in slots && slots[k].Size? then slots[k].num else NO_VALUE
  }

  function SubAt(slots: map<int, Slot>, k: int): Inst {
    if k in slots && slots[k].Sub? then slots[k].fi else FreshInst()
  }

  function ListAt(slots: map<int, Slot>, k: int): Loop {
    if k in slots && slots[k].List? then slots[k].it else FreshLoop()
  }

  predicate Points(t: Template, i: int) {
    0 <= i && i + 1 < |t| && t[i].Pointer? && t[i + 1].PtrItem?
  }

  // Sizes.

  datatype Sum = Unknown | Known(n: int)

  function ElemTotal(t: Template, i: int, slots: map<int, Slot>, k: int): int
    decreases t, 1
  {
    if !(0 <= i < |t|) then NO_VALUE
    else match t[i]
      case Bits(w) => w
      case Barray => SizeAt(slots, k)
      case Pointer => if Points(t, i) then FrameTotal(t[i + 1].sub, SubAt(slots, k)) else NO_VALUE
      case _ => NO_VALUE
  }

  function ElemsTotal(t: Template, i: int, slots: map<int, Slot>, k: int, n: int): Sum
    decreases t, 2, n - k
  {
    if k >= n then Known(0)
    else
      var num := ElemTotal(t, i, slots, k);
      if num == NO_VALUE then Unknown
      else match ElemsTotal(t, i, slots, k + 1, n)
        case Unknown => Unknown
        case Known(rest) => Known(num + rest)
  }

  /** IterGetTotalSize of the list that repeats record i. */
  function LoopTotal(t: Template, i: int, it: Loop): int
    decreases t, 3
  {
    if it.exp then NO_VALUE
    else match ElemsTotal(t, i, it.slots, 0, it.max) case Unknown => NO_VALUE case Known(n) => n
  }

  /** _FrameInstGetItemSize. */
  function ItemTotal(t: Template, s: Inst, i: int): int
    decreases t, 4, i, 1
  {
    if !(0 <= i < |t|) then NO_VALUE
    else match t[i]
      case Bits(w) => w
      case Counter(w, _, _) => w
      case Barray => SizeAt(s.slots, i)
      case Padding(unit, number) => PadLen(unit, BackTotal(t, s, i, number))
      case Iter => if i in s.slots then LoopTotal(t, i + 1, ListAt(s.slots, i)) else NO_VALUE
      case Pointer => if i in s.slots && Points(t, i) then FrameTotal(t[i + 1].sub, SubAt(s.slots, i)) else NO_VALUE
      case _ => NO_VALUE
  }

  function BackTotal(t: Template, s: Inst, i: int, n: int): int
    requires 0 <= i <= |t|
    decreases t, 4, i, 0
  {
    var j := Decrement(t, i);
    if n <= 0 || j < 0 then 0 else ItemTotal(t, s, j) + BackTotal(t, s, j, n - 1)
  }

  function TotalFrom(t: Template, s: Inst, i: int): int
    decreases t, 5, |t| - i
  {
    if !(0 <= i < |t|) || t[i].Eol? || !(i < Increment(t, i)) then 0
    else ItemTotal(t, s, i) + TotalFrom(t, s, Increment(t, i))
  }

  /** FrameInstGetTotalSize. */
  function FrameTotal(t: Template, s: Inst): int
    decreases t, 6
  {
    TotalFrom(t, s, 0)
  }

  // Moving on.

  function Left(t: Template, i: int): nat {
    if 0 <= i < |t| then |t| - i else 0
  }

  function Ahead(it: Loop): set<int> {
    set k | k in it.slots.Keys && k >= it.cur
  }

  /** FrameInstGetNextType: the next token and the instance moved on. */
  function InstNext(t: Template, s: Inst): (r: (Info, Inst))
    decreases t, 1, Left(t, s.cur)
  {
    if !(0 <= s.cur < |t|) then (End, s)
    else match t[s.cur]
      case Bits(w) => (BitsInfo(w), s.(cur := s.cur + 1))
      case Eol => (End, s.(cur := Increment(t, s.cur)))
      case Counter(w, isByteLen, offset) =>
        var at := s.cur + offset;
        if 0 <= at < |t| && t[at].Iter? then
          var it := ListAt(s.slots, at);
          (CounterInfo(w, at, if isByteLen then LoopTotal(t, at + 1, it) else if it.exp then NO_VALUE else it.max),
           Inst(s.cur + 1, s.slots[at := List(it)]))
        else (Stuck, s)
      case Barray => (BarrayInfo(SizeAt(s.slots, s.cur)), s.(cur := s.cur + 1))
      case Padding(unit, n) => (PadInfo(PadLen(unit, BackTotal(t, s, s.cur, n))), s.(cur := s.cur + 1))
      case Iter =>
        var (info, it) := LoopNext(t, s.cur + 1, ListAt(s.slots, s.cur));
        var slots := s.slots[s.cur := List(it)];
        if info.End? then InstNext(t, MovedOn(t, s.cur, slots)) else (info, Inst(s.cur, slots))
      case Pointer =>
        if !Points(t, s.cur) then (Stuck, s)
        else
          var (info, fi) := InstNext(t[s.cur + 1].sub, SubAt(s.slots, s.cur));
          var slots := s.slots[s.cur := Sub(fi)];
          if info.End? then InstNext(t, MovedOn(t, s.cur, slots)) else (info, Inst(s.cur, slots))
      case PtrItem(_) => (Stuck, s)
  }

  function MovedOn(t: Template, i: int, slots: map<int, Slot>): (s: Inst)
    requires 0 <= i < |t|
    ensures Left(t, s.cur) < Left(t, i)
  {
    IncrementIncreases(t, i);
    Inst(Increment(t, i), slots)
  }

  lemma IncrementIncreases(t: Template, i: int)
    requires 0 <= i
    ensures Increment(t, i) == -1 || Increment(t, i) > i
    decreases |t| - i
  {
  }

  /** IterGetNextType of the list that repeats record i.  A list that may grow and whose new
      elements are empty is never left. */
  function LoopNext(t: Template, i: int, it0: Loop): (r: (Info, Loop))
    decreases t, 0, if it0.cur < it0.max then it0.max - it0.cur else 0, Ahead(it0)
  {
    if !(0 <= i < |t|) then (Stuck, it0)
    else if it0.cur >= it0.max && !it0.exp then (End, it0.(start := false))
    else
      var it := it0.(start := false, max := if it0.cur >= it0.max then it0.cur + 1 else it0.max);
      match t[i]
      case Bits(w) => (BitsInfo(w), it.(cur := it.cur + 1))
      case Barray => (BarrayInfo(SizeAt(it.slots, it.cur)), it.(cur := it.cur + 1))
      case Pointer =>
        if !Points(t, i) then (Stuck, it)
        else
          var (info, fi) := InstNext(t[i + 1].sub, SubAt(it.slots, it.cur));
          var it2 := it.(slots := it.slots[it.cur := Sub(fi)]);
          if !info.End? then (info, it2)
          else
            var it3 := it2.(cur := it.cur + 1);
            if it0.cur < it0.max then LoopNext(t, i, it3)
            else if it.cur in it.slots then
              assert it.cur in Ahead(it0) && it.cur !in Ahead(it3);
              assert Ahead(it3) < Ahead(it0);
              LoopNext(t, i, it3)
            else (Stuck, it2)
      case _ => (Stuck, it)
  }
}
