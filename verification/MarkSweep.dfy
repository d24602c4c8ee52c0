/** The mark-and-sweep collector and the allocator of the embedded Lisp
    (src/lib/siod/slib.c, siodp.h), for one heap.

    Memory functions first, what they achieve second, and the class that works on the
    memory in place last. */
module MarkSweep {
  import opened Sealed
  import opened SiodCells

  /** NIL or the address of a cell. */
  predicate Addressable(m: Memory, p: int) {
    p == NIL || 0 < p < |m|
  }

  /** No pointer word of any cell leads out of the heap. */
  ghost predicate Closed(m: Memory) {
    forall x :: 0 < x < |m| ==>
      && (Pointer0(m[x].kind) ==> Addressable(m, m[x].w0))
      && (Pointer1(m[x].kind) ==> Addressable(m, m[x].w1))
  }

  /** r is m with more cells marked. */
  ghost predicate MoreMarks(m: Memory, r: Memory) {
    |r| == |m| && forall x :: 0 <= x < |m| ==> r[x] == m[x].(mark := r[x].mark) && (m[x].mark ==> r[x].mark)
  }

  ghost function Unmarked(m: Memory): set<int> {
    set x | 0 <= x < |m| && !m[x].mark
  }

  lemma MarkDecreases(m: Memory, r: Memory, p: int)
    requires MoreMarks(m, r) && 0 <= p < |m| && !m[p].mark && r[p].mark
    ensures Unmarked(r) < Unmarked(m)
  {
    assert p in Unmarked(m) && p !in Unmarked(r);
  }

  /** The pointer word gc_mark descends into first, and the one it goes on with; a
      cell without such a word counts as pointing to NIL there. */
  function First(c: Cell): int {
    match c.kind case Cons => c.w0 case Closure => c.w1 case _ => NIL
  }

  function Second(c: Cell): int {
    match c.kind case Cons => c.w1 case Closure => c.w0 case Symbol => c.w1 case _ => NIL
  }

  function Mark(m: Memory, p: int): (r: Memory)
    requires Closed(m) && Addressable(m, p)
    ensures MoreMarks(m, r) && (p != NIL ==> r[p].mark)
    decreases Unmarked(m)
  {
    if p == NIL || m[p].mark then m
    else
      var m1 := m[p := m[p].(mark := true)];
      MarkDecreases(m, m1, p);
      var m2 := Mark(m1, First(m[p]));
      MarkDecreases(m, m2, p);
      Mark(m2, Second(m[p]))
  }

  /** Marked cells outside `pending` point only to marked cells. */
  ghost predicate Settled(m: Memory, pending: set<int>) {
    forall x, y :: 0 < x < |m| && m[x].mark && x !in pending && Edge(m, x, y) ==> 0 < y < |m| && m[y].mark
  }

  /** Marking from p leaves no cell behind that is marked but not followed up. */
  lemma {:induction false} MarkSettles(m: Memory, p: int, pending: set<int>)
    requires Closed(m) && Addressable(m, p) && Settled(m, pending)
    ensures Settled(Mark(m, p), pending)
    decreases Unmarked(m)
  {
    if p != NIL && !m[p].mark {
      var m1 := m[p := m[p].(mark := true)];
      MarkDecreases(m, m1, p);
      assert Settled(m1, pending + {p});
      var m2 := Mark(m1, First(m[p]));
      MarkSettles(m1, First(m[p]), pending + {p});
      MarkDecreases(m, m2, p);
      MarkSettles(m2, Second(m[p]), pending + {p});
    }
  }

  /** Everything marked in m lies in S. */
  ghost predicate MarkedWithin(m: Memory, S: set<int>) {
    forall x :: 0 < x < |m| && m[x].mark ==> x in S
  }

  ghost predicate EdgeClosed(m: Memory, S: set<int>) {
    forall x, y :: x in S && Edge(m, x, y) ==> y in S
  }

  /** Marking from a member of a set closed under pointers marks only members of it. */
  lemma {:induction false} MarkStaysWithin(m: Memory, p: int, S: set<int>)
    requires Closed(m) && Addressable(m, p) && (p != NIL ==> p in S)
    requires EdgeClosed(m, S) && MarkedWithin(m, S)
    ensures MarkedWithin(Mark(m, p), S) && EdgeClosed(Mark(m, p), S)
    decreases Unmarked(m)
  {
    if p != NIL && !m[p].mark {
      var m1 := m[p := m[p].(mark := true)];
      MarkDecreases(m, m1, p);
      assert First(m[p]) != NIL ==> Edge(m, p, First(m[p]));
      assert Second(m[p]) != NIL ==> Edge(m, p, Second(m[p]));
      EdgesSame(m, m1, S);
      var m2 := Mark(m1, First(m[p]));
      MarkStaysWithin(m1, First(m[p]), S);
      MarkDecreases(m, m2, p);
      MarkStaysWithin(m2, Second(m[p]), S);
    }
  }

  lemma EdgesSame(m: Memory, r: Memory, S: set<int>)
    requires MoreMarks(m, r) && EdgeClosed(m, S)
    ensures EdgeClosed(r, S)
  {
    forall x, y | x in S && Edge(r, x, y) ensures y in S {
      assert Edge(m, x, y);
    }
  }

  /** mark_protected_registers, or mark_locations after its filter: mark from each word. */
  function MarkWords(m: Memory, ws: seq<int>): (r: Memory)
    requires Closed(m) && (forall w :: w in ws ==> Addressable(m, w))
    ensures MoreMarks(m, r)
    decreases |ws|
  {
    if ws == [] then m
    else
      var m1 := Mark(m, ws[0]);
      assert Closed(m1);
      assert forall w :: w in ws[1..] ==> w in ws && Addressable(m, w);
      MarkWords(m1, ws[1..])
  }

  /** looks_pointerp: the word is the address of a cell that is not free. */
  predicate LooksPointer(m: Memory, w: int) {
    0 < w < |m| && m[w].kind != FreeCell
  }

  /** The words mark_locations_array marks from. */
  function Candidates(m: Memory, ws: seq<int>): (r: seq<int>)
    ensures forall w :: w in r ==> LooksPointer(m, w)
  {
    if ws == [] then []
    else (if LooksPointer(m, ws[0]) then [ws[0]] else []) + Candidates(m, ws[1..])
  }

  ghost predicate NoMarks(m: Memory) {
    forall x :: 0 < x < |m| ==> !m[x].mark
  }

  ghost function RootSet(ws: seq<int>): set<int> {
    set w | w in ws
  }

  lemma {:induction false} MarkWordsSettles(m: Memory, ws: seq<int>)
    requires Closed(m) && Settled(m, {}) && (forall w :: w in ws ==> Addressable(m, w))
    ensures Settled(MarkWords(m, ws), {})
    ensures forall w :: w in ws && w != NIL ==> MarkWords(m, ws)[w].mark
    decreases |ws|
  {
    if ws != [] {
      assert forall w :: w in ws[1..] ==> w in ws;
      MarkSettles(m, ws[0], {});
      MarkWordsSettles(Mark(m, ws[0]), ws[1..]);
      assert forall w :: w in ws ==> w == ws[0] || w in ws[1..];
    }
  }

  lemma {:induction false} MarkWordsWithin(m: Memory, ws: seq<int>, S: set<int>)
    requires Closed(m) && (forall w :: w in ws ==> Addressable(m, w) && (w != NIL ==> w in S))
    requires EdgeClosed(m, S) && MarkedWithin(m, S)
    ensures MarkedWithin(MarkWords(m, ws), S)
    decreases |ws|
  {
    if ws != [] {
      assert forall w :: w in ws[1..] ==> w in ws;
      EdgesSame(m, Mark(m, ws[0]), S);
      MarkStaysWithin(m, ws[0], S);
      MarkWordsWithin(Mark(m, ws[0]), ws[1..], S);
    }
  }

  /** The mark phase is exact: it marks the cells reachable from the words, and no other. */
  lemma MarkExact(m: Memory, ws: seq<int>, x: int)
    requires Closed(m) && NoMarks(m) && (forall w :: w in ws ==> Addressable(m, w))
    ensures (0 < x < |m| && MarkWords(m, ws)[x].mark) <==> Reachable(m, RootSet(ws), x)
  {
    var r, roots := MarkWords(m, ws), RootSet(ws);
    if Reachable(m, roots, x) {
      MarkWordsSettles(m, ws);
      var S := set y | 0 < y < |m| && r[y].mark;
      forall y, z | y in S && Edge(m, y, z) ensures z in S {
        assert Edge(r, y, z);
      }
      ReachableInClosed(m, roots, S, x);
    } else if 0 < x < |m| {
      var S := set y | 0 < y < |m| && Reachable(m, roots, y);
      MarkedOnlyReachable(m, ws, S);
    }
  }

  lemma MarkedOnlyReachable(m: Memory, ws: seq<int>, S: set<int>)
    requires Closed(m) && NoMarks(m) && (forall w :: w in ws ==> Addressable(m, w))
    requires forall y :: y in S <==> 0 < y < |m| && Reachable(m, RootSet(ws), y)
    ensures MarkedWithin(MarkWords(m, ws), S)
  {
    var roots := RootSet(ws);
    forall y, z | y in S && Edge(m, y, z) ensures z in S {
      EdgeReachable(m, roots, y, z);
    }
    forall w | w in ws && w != NIL ensures w in S {
      RootReachable(m, roots, w);
    }
    MarkWordsWithin(m, ws, S);
  }

  predicate NilOrMarked(m: Memory, p: int) {
    p == NIL || (0 < p < |m| && m[p].mark)
  }

  /** What a marked cell keeps: a pair or a closure what both words name, a symbol its value. */
  lemma MarkedByKind(m: Memory, ws: seq<int>, x: int)
    requires Closed(m) && NoMarks(m) && (forall w :: w in ws ==> Addressable(m, w)) && 0 < x < |m|
    ensures var r := MarkWords(m, ws);
      r[x].mark ==> match m[x].kind {
        case Cons | Closure => NilOrMarked(r, m[x].w0) && NilOrMarked(r, m[x].w1)
        case Symbol => NilOrMarked(r, m[x].w1)
        case _ => true
      }
  {
    var r := MarkWords(m, ws);
    MarkWordsSettles(m, ws);
    EdgeByKind(r, x, m[x].w0);
    EdgeByKind(r, x, m[x].w1);
  }

  /** And nothing else is kept: a cell that no root, pair, closure or value of a symbol names is freed, whatever the words of numbers,
      built-ins and names say. */
  lemma FreedByKind(m: Memory, ws: seq<int>, x: int)
    requires Closed(m) && NoMarks(m) && (forall w :: w in ws ==> Addressable(m, w)) && 0 < x < |m| && x !in ws
    requires forall y :: 0 < y < |m| && y != x ==>
      match m[y].kind {
        case Cons | Closure => m[y].w0 != x && m[y].w1 != x
        case Symbol => m[y].w1 != x
        case _ => true
      }
    ensures x in Freed(MarkWords(m, ws), |m|)
  {
    var roots := RootSet(ws);
    if p: seq<int> :| IsPath(m, roots, p) && p[|p| - 1] == x {
      NotNamed(m, roots, p, x);
    }
    MarkExact(m, ws, x);
    FreedExact(MarkWords(m, ws), |m|);
  }

  /** The unmarked cells below i, highest first: the free list gc_sweep builds. */
  function Freed(m: Memory, i: int): seq<int>
    requires i <= |m|
    decreases i
  {
    if i <= 1 then []
    else if m[i - 1].mark then Freed(m, i - 1)
    else [i - 1] + Freed(m, i - 1)
  }

  lemma {:induction false} FreedExact(m: Memory, i: int)
    requires i <= |m|
    ensures forall x :: x in Freed(m, i) <==> 0 < x < i && !m[x].mark
    ensures forall k, l :: 0 <= k < l < |Freed(m, i)| ==> Freed(m, i)[k] != Freed(m, i)[l]
    decreases i
  {
    if i > 1 {
      FreedExact(m, i - 1);
      assert !m[i - 1].mark ==> Freed(m, i)[1..] == Freed(m, i - 1);
    }
  }

  function Head(fl: seq<int>): int {
    if fl == [] then NIL else fl[0]
  }

  /** m is m0 after gc_sweep has passed the cells below i. */
  ghost predicate Swept(m0: Memory, m: Memory, i: int) {
    && |m| == |m0| && i <= |m0|
    && forall x {:trigger m[x]} :: 0 <= x < |m0| ==>
         m[x] == if !(0 < x < i) then m0[x]
                 else if m0[x].mark then m0[x].(mark := false)
                 else m0[x].(kind := FreeCell, w1 := Head(Freed(m0, x)))
  }

  /** The loop of gc_sweep: m0 is swept below i, and head is the first cell freed. */
  ghost predicate Sweeping(m0: Memory, m: Memory, i: int, head: int) {
    |m| == |m0| && i <= |m0| && forall n: int :: Asked(n, m) ==> Swept(m0, m, i) && head == Head(Freed(m0, i))
  }

  lemma SweepStart(m0: Memory)
    requires |m0| >= 1
    ensures Sweeping(m0, m0, 1, NIL)
  {
  }

  function SweptCell(c: Cell, head: int): Cell {
    if c.mark then c.(mark := false) else c.(kind := FreeCell, w1 := head)
  }

  function SweptHead(c: Cell, i: int, head: int): int {
    if c.mark then head else i
  }

  /** One cell passed: unmarked, or put in front of the free list. */
  lemma SweepStep(m0: Memory, m: Memory, i: int, head: int, m': Memory, head': int)
    requires Sweeping(m0, m, i, head) && 0 < i < |m0|
    requires m' == m[i := SweptCell(m[i], head)] && head' == SweptHead(m[i], i, head)
    ensures Sweeping(m0, m', i + 1, head')
  {
    assert Asked(0, m);
    assert m[i] == m0[i];
  }

  lemma SweepEnd(m0: Memory, m: Memory, i: int, head: int)
    requires Sweeping(m0, m, i, head)
    ensures Swept(m0, m, i) && head == Head(Freed(m0, i))
  {
    assert Asked(0, m);
  }

  /** fl is the list linked through the second words starting at head. */
  ghost predicate FreeList(m: Memory, head: int, fl: seq<int>) {
    && head == Head(fl)
    && (forall k :: 0 <= k < |fl| ==> 0 < fl[k] < |m|)
    && (forall k, l :: 0 <= k < l < |fl| ==> fl[k] != fl[l])
    && (forall k :: 0 <= k < |fl| ==> m[fl[k]].w1 == Head(fl[k + 1..]))
  }

  lemma {:induction false} FreedTail(m: Memory, i: int, k: int)
    requires 1 <= i <= |m| && 0 <= k < |Freed(m, i)|
    ensures 0 < Freed(m, i)[k] < i && Freed(m, i)[k + 1..] == Freed(m, Freed(m, i)[k])
    decreases i
  {
    if m[i - 1].mark {
      FreedTail(m, i - 1, k);
    } else {
      var rest := Freed(m, i - 1);
      assert Freed(m, i)[k + 1..] == rest[k..];
      if k > 0 {
        FreedTail(m, i - 1, k - 1);
        assert Freed(m, i)[k] == rest[k - 1];
      }
    }
  }

  /** Sweeping the whole heap links exactly the unmarked cells, each once. */
  predicate IsFree(c: Cell) {
    c.kind == FreeCell && !c.mark
  }

  lemma {:induction false} SweepLinks(m0: Memory, m: Memory)
    requires 1 <= |m0| && Swept(m0, m, |m0|)
    ensures FreeList(m, Head(Freed(m0, |m0|)), Freed(m0, |m0|)) && FreeOk(m, |m|, Freed(m0, |m0|), 0)
  {
    var fl := Freed(m0, |m0|);
    FreedExact(m0, |m0|);
    forall k | 0 <= k < |fl| ensures 0 < fl[k] < |m| && m[fl[k]].w1 == Head(fl[k + 1..]) && IsFree(m[fl[k]]) {
      assert fl[k] in fl;
      FreedTail(m0, |m0|, k);
    }
  }

  /** The cells handed out and not yet collected. */
  predicate InUse(heap: int, free: seq<int>, x: int) {
    0 < x < heap && x !in free
  }

  predicate NilOrInUse(heap: int, free: seq<int>, p: int) {
    p == NIL || InUse(heap, free, p)
  }

  /** Cells in use are unmarked, typed, and point only to cells in use. */
  ghost predicate InUseOk(m: Memory, heap: int, free: seq<int>) {
    && 1 <= heap <= |m|
    && forall x :: InUse(heap, free, x) ==>
         && !m[x].mark && m[x].kind != FreeCell
         && (Pointer0(m[x].kind) ==> NilOrInUse(heap, free, m[x].w0))
         && (Pointer1(m[x].kind) ==> NilOrInUse(heap, free, m[x].w1))
  }

  /** Free cells are typed as free and unmarked from position `first` on. */
  ghost predicate FreeOk(m: Memory, heap: int, free: seq<int>, first: int) {
    && 1 <= heap <= |m|
    && (forall k :: 0 <= k < |free| ==> 0 < free[k] < heap)
    && (forall k :: 0 <= first <= k < |free| ==> m[free[k]].kind == FreeCell && !m[free[k]].mark)
  }

  ghost predicate PoolOk(m: Memory, regs: seq<int>, heap: int, freelist: int, free: seq<int>, first: int) {
    && 0 <= first && InUseOk(m, heap, free) && FreeOk(m, heap, free, first) && FreeList(m, freelist, free)
    && forall r :: r in regs ==> NilOrInUse(heap, free, r)
  }

  /** The cells not handed out yet become free cells when a collection starts. */
  function Cleared(m: Memory, heap: int): (r: Memory)
    requires 0 <= heap <= |m|
    ensures |r| == |m|
  {
    seq(|m|, i requires 0 <= i < |m| => if i < heap then m[i] else Cell(false, FreeCell, m[i].w0, m[i].w1))
  }

  /** The words a collection marks from: registers, and whatever looks like a pointer on
      the stack or in the saved machine registers. */
  function Roots(m: Memory, saved: seq<int>, regs: seq<int>, stack: seq<int>): seq<int> {
    Candidates(m, saved) + regs + Candidates(m, stack)
  }

  lemma {:induction false} CandidatesExact(m: Memory, ws: seq<int>, w: int)
    ensures w in Candidates(m, ws) <==> w in ws && 0 < w < |m| && m[w].kind != FreeCell
    decreases |ws|
  {
    if ws != [] {
      CandidatesExact(m, ws[1..], w);
      assert w in ws <==> w == ws[0] || w in ws[1..];
    }
  }

  /** Every register is a root, and every word of the stack or the machine registers that is the address of a cell not free. */
  lemma RootsExact(m: Memory, saved: seq<int>, regs: seq<int>, stack: seq<int>, w: int)
    ensures w in RootSet(Roots(m, saved, regs, stack)) <==> w in regs || ((w in saved || w in stack) && 0 < w < |m| && m[w].kind != FreeCell)
  {
    CandidatesExact(m, saved, w);
    CandidatesExact(m, stack, w);
  }

  /** What the collector starts marking on. */
  lemma ClearedOk(m: Memory, saved: seq<int>, regs: seq<int>, stack: seq<int>, heap: int, freelist: int, free: seq<int>)
    requires PoolOk(m, regs, heap, freelist, free, 0)
    ensures var m0 := Cleared(m, heap);
      && Closed(m0) && NoMarks(m0)
      && forall w :: w in Roots(m0, saved, regs, stack) ==> Addressable(m0, w) && NilOrInUse(heap, free, w)
  {
    var m0 := Cleared(m, heap);
    forall x | 0 < x < |m0|
      ensures !m0[x].mark
      ensures Pointer0(m0[x].kind) ==> Addressable(m0, m0[x].w0)
      ensures Pointer1(m0[x].kind) ==> Addressable(m0, m0[x].w1)
      ensures m0[x].kind != FreeCell ==> InUse(heap, free, x)
    {
      if x < heap && x in free {
        var k :| 0 <= k < |free| && free[k] == x;
      } else if x < heap {
        assert InUse(heap, free, x);
      }
    }
  }

  /** Only cells in use are reachable, so a free cell never is. */
  lemma ReachableInUse(m: Memory, saved: seq<int>, regs: seq<int>, stack: seq<int>, heap: int, freelist: int,
                       free: seq<int>, x: int)
    requires PoolOk(m, regs, heap, freelist, free, 0)
    requires Reachable(Cleared(m, heap), RootSet(Roots(Cleared(m, heap), saved, regs, stack)), x)
    ensures InUse(heap, free, x)
  {
    var m0 := Cleared(m, heap);
    ClearedOk(m, saved, regs, stack, heap, freelist, free);
    var S := set y | 0 < y < heap && InUse(heap, free, y);
    forall y, z | y in S && Edge(m0, y, z) ensures z in S {
      assert InUse(heap, free, y);
    }
    ReachableInClosed(m0, RootSet(Roots(m0, saved, regs, stack)), S, x);
  }

  /** m2 is what a collection makes of m: the free cells are the unreachable ones, each
      listed once, and the reachable cells are as before. */
  ghost predicate Collected(m: Memory, saved: seq<int>, regs: seq<int>, stack: seq<int>, heap: int,
                            m2: Memory, free: seq<int>)
    requires 0 <= heap <= |m|
  {
    var m0 := Cleared(m, heap);
    var roots := RootSet(Roots(m0, saved, regs, stack));
    && |m2| == |m|
    && (forall x :: x in free <==> 0 < x < |m| && !Reachable(m0, roots, x))
    && (forall x :: Reachable(m0, roots, x) ==> 0 < x < |m| && m2[x] == m0[x])
  }

  lemma CollectedExactly(m: Memory, saved: seq<int>, regs: seq<int>, stack: seq<int>, heap: int, freelist: int,
                         free: seq<int>, m1: Memory, m2: Memory)
    requires PoolOk(m, regs, heap, freelist, free, 0)
    requires Closed(Cleared(m, heap)) && NoMarks(Cleared(m, heap))
    requires forall w :: w in Roots(Cleared(m, heap), saved, regs, stack) ==> Addressable(Cleared(m, heap), w)
    requires m1 == MarkWords(Cleared(m, heap), Roots(Cleared(m, heap), saved, regs, stack))
    requires Swept(m1, m2, |m1|)
    ensures Collected(m, saved, regs, stack, heap, m2, Freed(m1, |m1|))
  {
    var m0 := Cleared(m, heap);
    var ws := Roots(m0, saved, regs, stack);
    var fl := Freed(m1, |m1|);
    FreedExact(m1, |m1|);
    forall x ensures x in fl <==> 0 < x < |m| && !Reachable(m0, RootSet(ws), x) {
      MarkExact(m0, ws, x);
    }
    forall x | Reachable(m0, RootSet(ws), x) ensures 0 < x < |m| && m2[x] == m0[x] {
      MarkExact(m0, ws, x);
      ReachableInUse(m, saved, regs, stack, heap, freelist, free, x);
      assert m2[x] == m1[x].(mark := false);
    }
  }

  lemma CollectedInUse(m: Memory, saved: seq<int>, regs: seq<int>, stack: seq<int>, heap: int, freelist: int,
                       free: seq<int>, m2: Memory, fl: seq<int>)
    requires PoolOk(m, regs, heap, freelist, free, 0)
    requires Collected(m, saved, regs, stack, heap, m2, fl)
    ensures InUseOk(m2, |m|, fl)
  {
    var m0 := Cleared(m, heap);
    var roots := RootSet(Roots(m0, saved, regs, stack));
    forall x | InUse(|m|, fl, x)
      ensures !m2[x].mark && m2[x].kind != FreeCell
      ensures Pointer0(m2[x].kind) ==> NilOrInUse(|m|, fl, m2[x].w0)
      ensures Pointer1(m2[x].kind) ==> NilOrInUse(|m|, fl, m2[x].w1)
    {
      assert Reachable(m0, roots, x);
      ReachableInUse(m, saved, regs, stack, heap, freelist, free, x);
      CellEdges(m0, roots, x);
    }
  }

  lemma CollectedRegs(m: Memory, saved: seq<int>, regs: seq<int>, stack: seq<int>, heap: int, m2: Memory, fl: seq<int>)
    requires 0 <= heap <= |m| && Collected(m, saved, regs, stack, heap, m2, fl)
    ensures forall r :: r in regs ==> NilOrInUse(|m|, fl, r)
  {
    var m0 := Cleared(m, heap);
    var ws := Roots(m0, saved, regs, stack);
    forall r | r in regs ensures NilOrInUse(|m|, fl, r) {
      if r != NIL {
        assert r in ws;
        RootReachable(m0, RootSet(ws), r);
      }
    }
  }

  /** A collection leaves a well-formed heap, all of it handed out or free. */
  lemma CollectedOk(m: Memory, saved: seq<int>, regs: seq<int>, stack: seq<int>, heap: int, freelist: int,
                    free: seq<int>, m1: Memory, m2: Memory, heap2: int, freelist2: int, free2: seq<int>)
    requires PoolOk(m, regs, heap, freelist, free, 0) && heap2 == |m1| == |m|
    requires Swept(m1, m2, |m1|) && free2 == Freed(m1, |m1|) && freelist2 == Head(free2)
    requires Collected(m, saved, regs, stack, heap, m2, free2)
    ensures PoolOk(m2, regs, heap2, freelist2, free2, 0)
  {
    SweepLinks(m1, m2);
    CollectedInUse(m, saved, regs, stack, heap, freelist, free, m2, free2);
    CollectedRegs(m, saved, regs, stack, heap, m2, free2);
  }

  lemma CellEdges(m: Memory, roots: set<int>, x: int)
    requires 0 < x < |m| && Reachable(m, roots, x)
    ensures Pointer0(m[x].kind) && m[x].w0 != NIL ==> Reachable(m, roots, m[x].w0)
    ensures Pointer1(m[x].kind) && m[x].w1 != NIL ==> Reachable(m, roots, m[x].w1)
  {
    if Pointer0(m[x].kind) && m[x].w0 != NIL {
      EdgeReachable(m, roots, x, m[x].w0);
    }
    if Pointer1(m[x].kind) && m[x].w1 != NIL {
      EdgeReachable(m, roots, x, m[x].w1);
    }
  }

  /** Marking in several rounds is marking from all the words in turn. */
  lemma {:induction false} MarkWordsConcat(m: Memory, a: seq<int>, b: seq<int>)
    requires Closed(m) && (forall w :: w in a + b ==> Addressable(m, w))
    requires (forall w :: w in a ==> Addressable(m, w)) && (forall w :: w in b ==> Addressable(MarkWords(m, a), w))
    ensures MarkWords(m, a + b) == MarkWords(MarkWords(m, a), b)
    decreases |a|
  {
    if a == [] {
      assert a + b == b;
    } else {
      assert (a + b)[1..] == a[1..] + b;
      var m1 := Mark(m, a[0]);
      assert forall w :: w in a + b ==> Addressable(m, w) && Addressable(m1, w);
      MarkWordsConcat(m1, a[1..], b);
    }
  }

  lemma {:induction false} CandidatesSame(m: Memory, r: Memory, ws: seq<int>)
    requires MoreMarks(m, r)
    ensures Candidates(r, ws) == Candidates(m, ws)
  {
    if ws != [] {
      CandidatesSame(m, r, ws[1..]);
    }
  }

  lemma MarksCompose(m0: Memory, m: Memory, r: Memory)
    requires Closed(m0) && MoreMarks(m0, m) && MoreMarks(m, r)
    ensures Closed(r) && MoreMarks(m0, r)
  {
  }

  class Heap {
    const mem: array<Cell>   // heaps[0]; index 0 stands for NIL and is no cell
    const regs: array<int>   // the protected registers
    var heap: int
    var freelist: int
    ghost var free: seq<int> // the cells on the free list, in order

    constructor (n: nat, nregs: nat)
      ensures Valid() && fresh(mem) && fresh(regs) && mem.Length == n + 1 && regs.Length == nregs
    {
      mem := new Cell[n + 1](_ => Cell(false, FreeCell, 0, 0));
      regs := new int[nregs](_ => NIL);
      heap, freelist, free := 1, NIL, [];
    }

    ghost predicate Valid()
      reads this, mem, regs
    {
      PoolOk(mem[..], regs[..], heap, freelist, free, 0)
    }

    /** Reachable from the registers and whatever the stack and saved machine registers hold. */
    ghost predicate Live(saved: seq<int>, stack: seq<int>, x: int)
      requires Valid()
      reads this, mem, regs
    {
      var m0 := Cleared(mem[..], heap);
      Reachable(m0, RootSet(Roots(m0, saved, regs[..], stack)), x)
    }

    method GcMark(ptr0: int)
      requires Closed(mem[..]) && Addressable(mem[..], ptr0)
      modifies mem
      ensures mem[..] == Mark(old(mem[..]), ptr0)
      decreases Unmarked(mem[..])
    {
      ghost var m0 := mem[..];
      var ptr := ptr0;
      while true
        invariant Closed(mem[..]) && Addressable(mem[..], ptr) && MoreMarks(m0, mem[..])
        invariant Mark(m0, ptr0) == Mark(mem[..], ptr)
        decreases Unmarked(mem[..])
      {
        if ptr == NIL {
          return;
        }
        if mem[ptr].mark {
          return;
        }
        ghost var m := mem[..];
        mem[ptr] := mem[ptr].(mark := true);
        ghost var m1 := mem[..];
        assert m1 == m[ptr := m[ptr].(mark := true)];
        MarksCompose(m0, m, m1);
        MarkDecreases(m, m1, ptr);
        match mem[ptr].kind {
          case Cons =>
            GcMark(mem[ptr].w0);
            ptr := mem[ptr].w1;
          case Symbol =>
            ptr := mem[ptr].w1;
          case Closure =>
            GcMark(mem[ptr].w1);
            ptr := mem[ptr].w0;
          case _ =>
            return;
        }
        MarksCompose(m0, m1, mem[..]);
      }
    }

    method MarkProtectedRegisters()
      requires Closed(mem[..]) && forall w :: w in regs[..] ==> Addressable(mem[..], w)
      modifies mem
      ensures mem[..] == MarkWords(old(mem[..]), regs[..])
    {
      ghost var m0 := mem[..];
      var j := 0;
      while j < regs.Length
        invariant 0 <= j <= regs.Length && MoreMarks(m0, mem[..]) && Closed(mem[..])
        invariant forall w :: w in regs[j..] ==> Addressable(mem[..], w)
        invariant MarkWords(m0, regs[..]) == MarkWords(mem[..], regs[j..])
      {
        ghost var m, ws := mem[..], regs[j..];
        assert ws[0] == regs[j] && ws[1..] == regs[j + 1..];
        assert forall w :: w in ws[1..] ==> w in ws && Addressable(m, w);
        GcMark(regs[j]);
        MarksCompose(m0, m, mem[..]);
        j := j + 1;
      }
    }

    method MarkLocationsArray(x: seq<int>)
      requires Closed(mem[..])
      modifies mem
      ensures mem[..] == MarkWords(old(mem[..]), Candidates(old(mem[..]), x))
    {
      ghost var m0 := mem[..];
      var j := 0;
      assert x[0..] == x;
      while j < |x|
        invariant 0 <= j <= |x| && MoreMarks(m0, mem[..]) && Closed(mem[..])
        invariant MarkWords(m0, Candidates(m0, x)) == MarkWords(mem[..], Candidates(mem[..], x[j..]))
      {
        ghost var m, ws := mem[..], x[j..];
        assert ws[0] == x[j] && ws[1..] == x[j + 1..];
        var p := x[j];
        if 0 < p < mem.Length && mem[p].kind != FreeCell {
          GcMark(p);
          MarksCompose(m0, m, mem[..]);
          CandidatesSame(m, mem[..], ws[1..]);
          assert Candidates(m, ws)[1..] == Candidates(m, ws[1..]);
        } else {
          assert Candidates(m, ws) == Candidates(m, ws[1..]);
        }
        j := j + 1;
      }
    }

    /** What gc_sweep does to one cell. */
    method SweepCell(ptr: nat, nfreelist: int) returns (head: int)
      requires ptr < mem.Length
      modifies mem
      ensures mem[..] == old(mem[..])[ptr := SweptCell(old(mem[..])[ptr], nfreelist)]
      ensures head == SweptHead(old(mem[..])[ptr], ptr, nfreelist)
    {
      head := nfreelist;
      if !mem[ptr].mark {
        mem[ptr] := mem[ptr].(kind := FreeCell, w1 := nfreelist);
        head := ptr;
      } else {
        mem[ptr] := mem[ptr].(mark := false);
      }
    }

    /** The loop of gc_sweep. */
    method SweepCells() returns (nfreelist: int)
      requires mem.Length >= 1
      modifies mem
      ensures Sweeping(old(mem[..]), mem[..], mem.Length, nfreelist)
    {
      ghost var m0 := mem[..];
      ghost var now := m0;
      nfreelist := NIL;
      var ptr := 1;
      SweepStart(m0);
      while ptr < mem.Length
        invariant 1 <= ptr <= mem.Length && now == mem[..]
        invariant Sweeping(m0, now, ptr, nfreelist)
      {
        ghost var m, head := now, nfreelist;
        nfreelist := SweepCell(ptr, nfreelist);
        now := mem[..];
        SweepStep(m0, m, ptr, head, now, nfreelist);
        ptr := ptr + 1;
      }
    }

    method GcSweep()
      requires mem.Length >= 1
      modifies mem, this`freelist
      ensures Swept(old(mem[..]), mem[..], mem.Length)
      ensures freelist == Head(Freed(old(mem[..]), mem.Length))
    {
      ghost var m0 := mem[..];
      freelist := SweepCells();
      SweepEnd(m0, mem[..], mem.Length, freelist);
    }

    /** The collector: the free list now holds exactly the unreachable cells. */
    method GcMarkAndSweep(saved: seq<int>, stack: seq<int>)
      requires Valid()
      modifies this, mem
      ensures Valid() && heap == mem.Length
      ensures Collected(old(mem[..]), saved, regs[..], stack, old(heap), mem[..], free)
    {
      ghost var m, heap0, b := mem[..], heap, regs[..];
      ClearRest();
      ghost var m0 := mem[..];
      ClearedOk(m, saved, b, stack, heap0, old(freelist), old(free));
      assert regs[..] == b;
      MarkPhase(saved, stack);
      ghost var m1 := mem[..];
      GcSweep();
      free := Freed(m1, mem.Length);
      assert regs[..] == b;
      CollectedExactly(m, saved, regs[..], stack, heap0, old(freelist), old(free), m1, mem[..]);
      CollectedOk(m, saved, regs[..], stack, heap0, old(freelist), old(free), m1, mem[..], heap, freelist, free);
    }

    method ClearRest()
      requires 1 <= heap <= mem.Length
      modifies this`heap, mem
      ensures heap == mem.Length && mem[..] == Cleared(old(mem[..]), old(heap))
    {
      while heap < mem.Length
        invariant old(heap) <= heap <= mem.Length
        invariant forall i :: 0 <= i < old(heap) ==> mem[i] == old(mem[i])
        invariant forall i :: old(heap) <= i < heap ==> mem[i] == Cell(false, FreeCell, old(mem[i]).w0, old(mem[i]).w1)
        invariant forall i :: heap <= i < mem.Length ==> mem[i] == old(mem[i])
      {
        mem[heap] := mem[heap].(kind := FreeCell, mark := false);
        heap := heap + 1;
      }
    }

    method MarkPhase(saved: seq<int>, stack: seq<int>)
      requires Closed(mem[..])
      requires forall w :: w in Roots(mem[..], saved, regs[..], stack) ==> Addressable(mem[..], w)
      modifies mem
      ensures mem[..] == MarkWords(old(mem[..]), Roots(old(mem[..]), saved, regs[..], stack))
    {
      ghost var m0, b := mem[..], regs[..];
      ghost var a, c := Candidates(m0, saved), Candidates(m0, stack);
      assert forall w :: w in a + b ==> w in Roots(m0, saved, b, stack) && Addressable(m0, w);
      MarkLocationsArray(saved);
      ghost var m1 := mem[..];
      MarksCompose(m0, m0, m1);
      assert forall w :: w in b ==> w in a + b && Addressable(m1, w);
      MarkProtectedRegisters();
      ghost var m2 := mem[..];
      MarksCompose(m0, m1, m2);
      MarkWordsConcat(m0, a, b);
      CandidatesSame(m0, m2, stack);
      assert forall w :: w in c ==> w in a + b + c && Addressable(m2, w);
      MarkLocationsArray(stack);
      MarkWordsConcat(m0, a + b, c);
    }

    /** gc_for_newcell: afterwards the free list is not empty, or every cell is live. */
    method GcForNewcell(saved: seq<int>, stack: seq<int>)
      requires Valid() && freelist == NIL
      modifies this, mem
      ensures PoolOk(mem[..], regs[..], heap, freelist, free, 1)
      ensures forall x :: old(Live(saved, stack, x)) ==> InUse(heap, free, x) && mem[x] == old(mem[x])
      ensures free == [] ==> forall x :: 0 < x < mem.Length ==> old(Live(saved, stack, x))
    {
      ghost var m, heap0, b := mem[..], heap, regs[..];
      ghost var m0 := Cleared(m, heap0);
      forall x | Reachable(m0, RootSet(Roots(m0, saved, b, stack)), x)
        ensures InUse(heap0, free, x) && m0[x] == m[x]
      {
        ReachableInUse(m, saved, b, stack, heap0, freelist, free, x);
      }
      if heap < mem.Length {
        BumpOk(m, b, heap, free);
        freelist := heap;
        mem[freelist] := mem[freelist].(w1 := NIL);
        heap := heap + 1;
        free := [freelist];
        assert mem[..] == m[heap0 := m[heap0].(w1 := NIL)];
      } else {
        GcMarkAndSweep(saved, stack);
      }
      assert regs[..] == b;
    }

    /** The first half of NEWCELL: a collection if the free list is empty. */
    method Refill(saved: seq<int>, stack: seq<int>)
      requires Valid()
      modifies this, mem
      ensures PoolOk(mem[..], regs[..], heap, freelist, free, 1)
      ensures forall x :: old(Live(saved, stack, x)) ==> InUse(heap, free, x) && mem[x] == old(mem[x])
      ensures freelist == NIL ==> forall x :: 0 < x < mem.Length ==> old(Live(saved, stack, x))
    {
      if freelist == NIL {
        GcForNewcell(saved, stack);
      } else {
        forall x | Live(saved, stack, x) ensures InUse(heap, free, x) {
          ReachableInUse(mem[..], saved, regs[..], stack, heap, freelist, free, x);
        }
      }
    }

    /** The second half: the first free cell, filled. */
    method TakeCell(c: Cell) returns (z: int)
      requires PoolOk(mem[..], regs[..], heap, freelist, free, 1) && freelist != NIL && !c.mark && c.kind != FreeCell
      requires Pointer0(c.kind) ==> NilOrInUse(heap, free, c.w0)
      requires Pointer1(c.kind) ==> NilOrInUse(heap, free, c.w1)
      modifies this`freelist, this`free, mem
      ensures PoolOk(mem[..], regs[..], heap, freelist, free, 0) && z != NIL && InUse(heap, free, z) && !InUse(heap, old(free), z)
      ensures mem[z] == c && forall x :: InUse(heap, old(free), x) ==> InUse(heap, free, x) && mem[x] == old(mem[x])
    {
      ghost var m, b := mem[..], regs[..];
      PopOk(m, b, heap, freelist, free, c);
      z := freelist;
      freelist := mem[z].w1;
      mem[z] := c;
      free := free[1..];
      assert mem[..] == m[z := c] && regs[..] == b;
    }

    /** NEWCELL and the stores that fill the cell.  0 stands for gc_fatal_error, which
        happens only when every cell of the heap is live.  The cell handed out was not
        live, the live cells keep their contents, and the heap stays well formed. */
    method NewCell(kind: Kind, w0: int, w1: int, saved: seq<int>, stack: seq<int>) returns (z: int)
      requires Valid() && kind != FreeCell
      requires Pointer0(kind) ==> w0 == NIL || Live(saved, stack, w0)
      requires Pointer1(kind) ==> w1 == NIL || Live(saved, stack, w1)
      modifies this, mem
      ensures z != NIL ==> Valid() && !old(Live(saved, stack, z)) && InUse(heap, free, z)
      ensures z != NIL ==> mem[z] == Cell(false, kind, w0, w1)
      ensures z != NIL ==> forall x :: old(Live(saved, stack, x)) ==> InUse(heap, free, x) && mem[x] == old(mem[x])
      ensures z == NIL ==> forall x :: 0 < x < mem.Length ==> old(Live(saved, stack, x))
    {
      Refill(saved, stack);
      if freelist == NIL {
        return NIL;
      }
      z := TakeCell(Cell(false, kind, w0, w1));
    }
  }

  /** Putting the next cell not handed out yet on an empty free list. */
  lemma BumpOk(m: Memory, regs: seq<int>, heap: int, free: seq<int>)
    requires PoolOk(m, regs, heap, NIL, free, 0) && heap < |m|
    ensures PoolOk(m[heap := m[heap].(w1 := NIL)], regs, heap + 1, heap, [heap], 1)
    ensures forall x :: InUse(heap, free, x) ==> InUse(heap + 1, [heap], x)
  {
    assert free == [];
  }

  /** Taking the first cell off the free list and filling it. */
  lemma {:induction false} PopOk(m: Memory, regs: seq<int>, heap: int, freelist: int, free: seq<int>, c: Cell)
    requires PoolOk(m, regs, heap, freelist, free, 1) && freelist != NIL
    requires !c.mark && c.kind != FreeCell
    requires Pointer0(c.kind) ==> NilOrInUse(heap, free, c.w0)
    requires Pointer1(c.kind) ==> NilOrInUse(heap, free, c.w1)
    ensures 0 < freelist < |m| && free != [] && freelist == free[0]
    ensures PoolOk(m[freelist := c], regs, heap, m[freelist].w1, free[1..], 0)
    ensures InUse(heap, free[1..], freelist)
    ensures forall x :: InUse(heap, free, x) ==> InUse(heap, free[1..], x)
  {
    PopList(m, freelist, free, c);
    PopFree(m, heap, free, freelist, c);
    PopInUse(m, heap, free, freelist, c);
    forall r | r in regs ensures NilOrInUse(heap, free[1..], r) {
      assert NilOrInUse(heap, free, r);
    }
  }

  lemma PopList(m: Memory, freelist: int, free: seq<int>, c: Cell)
    requires FreeList(m, freelist, free) && freelist != NIL
    ensures 0 < freelist < |m| && free != [] && freelist == free[0]
    ensures FreeList(m[freelist := c], m[freelist].w1, free[1..])
  {
    forall k | 0 <= k < |free[1..]| ensures m[freelist := c][free[1..][k]].w1 == Head(free[1..][k + 1..]) {
      assert free[1..][k] == free[k + 1] != free[0] && free[1..][k + 1..] == free[k + 1 + 1..];
    }
  }

  lemma PopFree(m: Memory, heap: int, free: seq<int>, freelist: int, c: Cell)
    requires FreeOk(m, heap, free, 1) && FreeList(m, freelist, free) && free != []
    ensures FreeOk(m[freelist := c], heap, free[1..], 0)
  {
    forall k | 0 <= k < |free[1..]|
      ensures 0 < free[1..][k] < heap && m[freelist := c][free[1..][k]].kind == FreeCell && !m[freelist := c][free[1..][k]].mark
    {
      assert free[1..][k] == free[k + 1] != free[0];
    }
  }

  lemma PopInUse(m: Memory, heap: int, free: seq<int>, freelist: int, c: Cell)
    requires InUseOk(m, heap, free) && FreeList(m, freelist, free) && free != [] && 0 < free[0] < heap
    requires !c.mark && c.kind != FreeCell
    requires Pointer0(c.kind) ==> NilOrInUse(heap, free, c.w0)
    requires Pointer1(c.kind) ==> NilOrInUse(heap, free, c.w1)
    ensures InUseOk(m[freelist := c], heap, free[1..]) && InUse(heap, free[1..], freelist)
    ensures forall x :: InUse(heap, free, x) ==> InUse(heap, free[1..], x)
  {
    forall x | InUse(heap, free, x) ensures InUse(heap, free[1..], x) {
      assert forall k :: 0 <= k < |free[1..]| ==> free[1..][k] == free[k + 1];
    }
    forall x | InUse(heap, free[1..], x) ensures x == freelist || InUse(heap, free, x) {
      assert free == [free[0]] + free[1..];
    }
  }
}
