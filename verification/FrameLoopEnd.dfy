/** Reading lists of unknown length: the end test, the peek, and the byte counters that
    close a list (src/lib/IMdkit/FrameMgr.c). */
module FrameLoopEnd {
  import opened FrameTemplate
  import opened FrameCursor

  /** FrameInstIsIterLoopEnd: at a list that is done, step past it. */
  function InstLoopEnd(t: Template, s: Inst): (r: (bool, Inst))
    decreases t, 1
  {
    if !(0 <= s.cur < |t|) || !t[s.cur].Iter? || s.cur !in s.slots then (false, s)
    else
      var (ret, myself, it) := LoopEnd(t, s.cur + 1, ListAt(s.slots, s.cur));
      var slots := s.slots[s.cur := List(it)];
      (ret, Inst(if ret && myself then Increment(t, s.cur) else s.cur, slots))
  }

  /** IterIsLoopEnd: whether it is the end, and whether of this list itself. */
  function LoopEnd(t: Template, i: int, it: Loop): (r: (bool, bool, Loop))
    decreases t, 0
  {
    if !it.exp && it.cur == it.max then (true, true, it)
    else if !Points(t, i) || it.cur !in it.slots then (false, false, it)
    else
      var (inner, fi) := InstLoopEnd(t[i + 1].sub, SubAt(it.slots, it.cur));
      var it1 := it.(slots := it.slots[it.cur := Sub(fi)]);
      if inner then (true, false, it1)
      else if 0 <= fi.cur < |t[i + 1].sub| && t[i + 1].sub[fi.cur].Eol? then
        var it2 := it1.(cur := it.cur + 1);
        var last := !it.exp && it2.cur == it.max;
        (last, last, it2)
      else (false, false, it1)
  }

  /** FrameInstPeekNextType: as InstNext without moving on.  At a list or an inner frame
      that has no more tokens it calls itself for ever. */
  function InstPeek(t: Template, s: Inst): (r: (Info, Inst))
    decreases t, 1
  {
    if !(0 <= s.cur < |t|) then (End, s)
    else match t[s.cur]
      case Bits(w) => (BitsInfo(w), s)
      case Eol => (End, s)
      case Counter(w, _, offset) =>
        var at := s.cur + offset;
        (CounterInfo(w, at, NO_VALUE), s.(slots := s.slots[at := List(ListAt(s.slots, at))]))
      case Barray => (BarrayInfo(SizeAt(s.slots, s.cur)), s)
      case Padding(unit, n) => (PadInfo(PadLen(unit, BackTotal(t, s, s.cur, n))), s)
      case Iter =>
        var (info, it) := LoopPeek(t, s.cur + 1, ListAt(s.slots, s.cur));
        (if info.End? then Stuck else info, s.(slots := s.slots[s.cur := List(it)]))
      case Pointer =>
        if !Points(t, s.cur) then (Stuck, s)
        else
          var (info, fi) := InstPeek(t[s.cur + 1].sub, SubAt(s.slots, s.cur));
          (if info.End? then Stuck else info, s.(slots := s.slots[s.cur := Sub(fi)]))
      case PtrItem(_) => (Stuck, s)
  }

  function LoopPeek(t: Template, i: int, it: Loop): (r: (Info, Loop))
    decreases t, 0
  {
    if !(0 <= i < |t|) then (Stuck, it)
    else if !it.exp && it.cur >= it.max then (End, it)
    else match t[i]
      case Bits(w) => (BitsInfo(w), it)
      case Barray => (BarrayInfo(SizeAt(it.slots, it.cur)), it)
      case Pointer =>
        if !Points(t, i) then (Stuck, it)
        else
          var (info, fi) := InstPeek(t[i + 1].sub, SubAt(it.slots, it.cur));
          (if info.End? then Stuck else info, it.(slots := it.slots[it.cur := Sub(fi)]))
      case _ => (Stuck, it)
  }

  /** FrameIter: the bytes `counter` of `end` read of the list at record `at`, once `counting`. */
  datatype Counting = Counting(at: int, counting: bool, counter: int, end: int)

  /** _IterStartWatch: a list that has reported its first token starts its counter. */
  function Started(iters: seq<Counting>, s: Inst, s': Inst): (r: seq<Counting>)
    ensures |r| == |iters|
  {
    if iters == [] then []
    else
      var f := iters[0];
      [f.(counting := f.counting || (ListAt(s.slots, f.at).start && !ListAt(s'.slots, f.at).start))]
      + Started(iters[1..], s, s')
  }

  /** _FrameIterCounterIncr and _FrameMgrRemoveIter: the counters after n more bytes, and
      the record of the list whose counter reached its end and was removed, or -1. */
  function CounterIncr(iters: seq<Counting>, n: int): (seq<Counting>, int) {
    if iters == [] then ([], -1)
    else
      var f := iters[0];
      if f.counting && f.counter + n >= f.end then (iters[1..], f.at)
      else
        var (rest, hit) := CounterIncr(iters[1..], n);
        ([if f.counting then f.(counter := f.counter + n) else f] + rest, hit)
  }

  /** IterFixIteration: the list has as many elements as it has now. */
  function Fix(s: Inst, at: int): Inst {
    if at < 0 then s else s.(slots := s.slots[at := List(ListAt(s.slots, at).(exp := false))])
  }

  /** IterSetStarter. */
  function Watch(s: Inst, at: int): Inst {
    s.(slots := s.slots[at := List(ListAt(s.slots, at).(start := true))])
  }
}
