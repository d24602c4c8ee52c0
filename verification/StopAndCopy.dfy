/** The copying collector of the embedded Lisp (src/lib/siod/slib.c).

    The first half gives the collector as functions from memory to memory and proves
    what a collection preserves; the second half is the class whose methods change the
    memory in place, each proved equal to its function. */
module StopAndCopy {
  import opened Sealed
  import opened SiodCells

  /** The cells and the allocation pointer; `fatal` stands for gc_fatal_error. */
  datatype State = State(m: Memory, heap: int, fatal: bool)

  predicate Addressable(m: Memory, x: int) {
    x == NIL || 0 < x < |m|
  }

  /** gc_relocate: the copy of x, made now unless x already forwards to it. */
  function Relocate(s: State, x: int, limit: int): (r: (State, int))
    requires 0 < s.heap <= limit <= |s.m|
    ensures s.heap <= r.0.heap <= limit && |r.0.m| == |s.m|
  {
    if x == NIL then (s, NIL)
    else if !Addressable(s.m, x) then (s.(fatal := true), NIL)
    else if s.m[x].mark then (s, s.m[x].w0)
    else if s.heap >= limit then (s.(fatal := true), NIL)
    else (State(CopyCell(s.m, x, s.heap), s.heap + 1, s.fatal), s.heap)
  }

  /** The body of scan_newspace's loop: relocate the pointer words of the cell at ptr. */
  function ScanCell(s: State, ptr: int, limit: int): (r: State)
    requires 0 < ptr < s.heap <= limit <= |s.m|
    ensures s.heap <= r.heap <= limit && |r.m| == |s.m|
  {
    var s1 := if Pointer0(s.m[ptr].kind) then ScanWord0(s, ptr, limit) else s;
    if Pointer1(s.m[ptr].kind) then ScanWord1(s1, ptr, limit) else s1
  }

  function ScanWord0(s: State, ptr: int, limit: int): (r: State)
    requires 0 < ptr < s.heap <= limit <= |s.m|
    ensures s.heap <= r.heap <= limit && |r.m| == |s.m|
  {
    var (s1, a) := Relocate(s, s.m[ptr].w0, limit);
    s1.(m := s1.m[ptr := s1.m[ptr].(w0 := a)])
  }

  function ScanWord1(s: State, ptr: int, limit: int): (r: State)
    requires 0 < ptr < s.heap <= limit <= |s.m|
    ensures s.heap <= r.heap <= limit && |r.m| == |s.m|
  {
    var (s1, a) := Relocate(s, s.m[ptr].w1, limit);
    s1.(m := s1.m[ptr := s1.m[ptr].(w1 := a)])
  }

  /** scan_newspace from ptr on; the heap pointer may move on while it runs. */
  function ScanNewspace(s: State, ptr: int, limit: int): (r: State)
    requires 0 < ptr <= s.heap <= limit <= |s.m|
    ensures s.heap <= r.heap <= limit && |r.m| == |s.m|
    decreases limit - ptr
  {
    if ptr < s.heap then ScanNewspace(ScanCell(s, ptr, limit), ptr + 1, limit) else s
  }

  /** scan_registers over the registers still to be relocated. */
  function ScanRegisters(s: State, regs: seq<int>, limit: int): (r: (State, seq<int>))
    requires 0 < s.heap <= limit <= |s.m|
    ensures s.heap <= r.0.heap <= limit && |r.0.m| == |s.m| && |r.1| == |regs|
    decreases |regs|
  {
    if regs == [] then (s, [])
    else
      var (s1, a) := Relocate(s, regs[0], limit);
      var (s2, rest) := ScanRegisters(s1, regs[1..], limit);
      (s2, [a] + rest)
  }

  /** What is left of a scan that came to goal: the registers done, and those to come. */
  ghost predicate RegistersLeft(goal: (State, seq<int>), done: seq<int>, s: State, rest: seq<int>, limit: int)
    requires 0 < s.heap <= limit <= |s.m|
  {
    forall k: int :: Asked(k, rest) ==> goal == (ScanRegisters(s, rest, limit).0, done + ScanRegisters(s, rest, limit).1)
  }

  lemma RegistersStart(s: State, regs: seq<int>, limit: int)
    requires 0 < s.heap <= limit <= |s.m|
    ensures RegistersLeft(ScanRegisters(s, regs, limit), [], s, regs, limit)
  {
    assert [] + ScanRegisters(s, regs, limit).1 == ScanRegisters(s, regs, limit).1;
  }

  lemma RegistersStep(goal: (State, seq<int>), done: seq<int>, s: State, rest: seq<int>, limit: int, s': State, a: int)
    requires 0 < s.heap <= limit <= |s.m| && RegistersLeft(goal, done, s, rest, limit)
    requires rest != [] && (s', a) == Relocate(s, rest[0], limit)
    ensures RegistersLeft(goal, done + [a], s', rest[1..], limit)
  {
    assert Asked(0, rest);
    assert done + ([a] + ScanRegisters(s', rest[1..], limit).1) == done + [a] + ScanRegisters(s', rest[1..], limit).1;
  }

  lemma RegistersEnd(goal: (State, seq<int>), done: seq<int>, s: State, limit: int)
    requires 0 < s.heap <= limit <= |s.m| && RegistersLeft(goal, done, s, [], limit)
    ensures goal == (s, done)
  {
    assert Asked<seq<int>>(0, []);
    assert done + [] == done;
  }

  /** gc_stop_and_copy into the space [base, limit). */
  function Collect(m: Memory, regs: seq<int>, base: int, limit: int): (r: (State, seq<int>))
    requires 0 < base <= limit <= |m|
    ensures base <= r.0.heap <= limit && |r.0.m| == |m| && |r.1| == |regs|
  {
    var (s, regs') := ScanRegisters(State(m, base, false), regs, limit);
    (ScanNewspace(s, base, limit), regs')
  }

  function CopyCell(m: Memory, x: int, nw: int): Memory
    requires 0 <= x < |m| && 0 <= nw < |m|
  {
    m[nw := m[x]][x := m[x].(mark := true, w0 := nw)]
  }

  /** What stays fixed during a collection: the memory it started from, its live cells,
      the old space [org, end) and the start of the new space.  Beside it, `src` lists
      the old address of each copied cell in the order of copying. */
  datatype Job = Job(m0: Memory, live: set<int>, org: int, end: int, base: int)

  /** q is where p was copied to. */
  ghost predicate Forwarded(src: seq<int>, base: int, p: int, q: int) {
    || (p == NIL && q == NIL)
    || (base <= q < base + |src| && src[q - base] == p)
  }

  /** d is c with each pointer word redirected to the copy of its target. */
  ghost predicate Relocated(src: seq<int>, base: int, c: Cell, d: Cell) {
    && d.kind == c.kind && !d.mark
    && (if Pointer0(c.kind) then Forwarded(src, base, c.w0, d.w0) else d.w0 == c.w0)
    && (if Pointer1(c.kind) then Forwarded(src, base, c.w1, d.w1) else d.w1 == c.w1)
  }

  /** p is NIL or the address of a cell in [lo, hi). */
  predicate PointsInto(p: int, lo: int, hi: int) {
    p == NIL || lo <= p < hi
  }

  /** The cells of a space are unmarked and point only into it. */
  ghost predicate SpaceOk(m: Memory, lo: int, hi: int) {
    && 0 < lo <= hi <= |m|
    && forall x :: lo <= x < hi ==>
         && !m[x].mark
         && (Pointer0(m[x].kind) ==> PointsInto(m[x].w0, lo, hi))
         && (Pointer1(m[x].kind) ==> PointsInto(m[x].w1, lo, hi))
  }

  /** The two spaces lie apart and the new one has room for all of the old one. */
  ghost predicate Layout(j: Job, src: seq<int>, m: Memory) {
    && 0 < j.org <= j.end <= |j.m0| == |m|
    && 0 < j.base && j.base + (j.end - j.org) <= |m|
    && (j.end <= j.base || j.base + (j.end - j.org) <= j.org)
    && |src| <= j.end - j.org
    && forall i :: 0 <= i < |src| ==> j.org <= src[i] < j.end
  }

  /** Every copied cell forwards to its copy, and only copied cells are marked or changed. */
  ghost predicate OldSpace(j: Job, src: seq<int>, m: Memory)
    requires Layout(j, src, m)
  {
    && (forall i :: 0 <= i < |src| ==> m[src[i]].mark && m[src[i]].w0 == j.base + i)
    && (forall x :: j.org <= x < j.end && !m[x].mark ==> m[x] == j.m0[x])
    && (forall x :: j.org <= x < j.end && m[x].mark ==> x in src)
  }

  /** The first `done` new cells are relocated, those from `next` on are plain copies. */
  ghost predicate NewSpace(j: Job, src: seq<int>, m: Memory, done: int, next: int)
    requires Layout(j, src, m)
  {
    && 0 <= done <= next <= |src|
    && (forall i :: 0 <= i < done ==> Relocated(src, j.base, j.m0[src[i]], m[j.base + i]))
    && (forall i :: next <= i < |src| ==> m[j.base + i] == j.m0[src[i]])
  }

  /** The invariant of a collection. */
  ghost predicate Collecting(j: Job, src: seq<int>, m: Memory, heap: int, done: int, next: int) {
    && SpaceOk(j.m0, j.org, j.end)
    && Layout(j, src, m) && OldSpace(j, src, m) && NewSpace(j, src, m, done, next)
    && (forall i :: 0 <= i < |src| ==> src[i] in j.live)
    && heap == j.base + |src|
  }

  /** The live set holds old cells and is closed under their pointers. */
  ghost predicate LiveClosed(j: Job) {
    && (forall x :: x in j.live ==> j.org <= x < j.end)
    && (forall x, y :: x in j.live && Edge(j.m0, x, y) ==> y in j.live)
  }

  /** What gc_relocate may be given: NIL or a live cell of the old space. */
  predicate MayRelocate(j: Job, x: int) {
    x == NIL || (j.org <= x < j.end && x in j.live)
  }

  lemma RoomToCopy(j: Job, src: seq<int>, m: Memory, x: int)
    requires Layout(j, src, m) && OldSpace(j, src, m) && j.org <= x < j.end && !m[x].mark
    ensures |src| < j.end - j.org
  {
    DistinctMissing(src, j.org, j.end, x);
  }

  lemma MoveOldSpace(j: Job, src: seq<int>, m: Memory, x: int, src': seq<int>, m': Memory)
    requires Layout(j, src, m) && OldSpace(j, src, m) && j.org <= x < j.end && !m[x].mark
    requires |src| < j.end - j.org && src' == src + [x] && m' == CopyCell(m, x, j.base + |src|)
    ensures Layout(j, src', m') && OldSpace(j, src', m')
  {
  }

  lemma MoveNewSpace(j: Job, src: seq<int>, m: Memory, x: int, done: int, next: int, src': seq<int>, m': Memory)
    requires Layout(j, src, m) && NewSpace(j, src, m, done, next)
    requires j.org <= x < j.end && m[x] == j.m0[x] && |src| < j.end - j.org
    requires src' == src + [x] && m' == CopyCell(m, x, j.base + |src|)
    ensures Layout(j, src', m') && NewSpace(j, src', m', done, next)
  {
  }

  /** The copying branch of gc_relocate keeps the invariant. */
  lemma MoveKeeps(j: Job, src: seq<int>, m: Memory, x: int, heap: int, done: int, next: int, src': seq<int>, m': Memory)
    requires Collecting(j, src, m, heap, done, next) && |src| < j.end - j.org
    requires MayRelocate(j, x) && x != NIL && !m[x].mark
    requires src' == src + [x] && m' == CopyCell(m, x, heap)
    ensures Collecting(j, src', m', heap + 1, done, next)
  {
    MoveOldSpace(j, src, m, x, src', m');
    MoveNewSpace(j, src, m, x, done, next, src', m');
  }

  function Next(src: seq<int>, m: Memory, x: int): (src': seq<int>)
    requires Addressable(m, x)
    ensures src <= src'
  {
    if x != NIL && !m[x].mark then src + [x] else src
  }

  lemma RelocateKeeps(j: Job, src: seq<int>, s: State, x: int, limit: int, done: int, next: int, src': seq<int>, s': State, r: int)
    requires Collecting(j, src, s.m, s.heap, done, next) && MayRelocate(j, x)
    requires j.base + (j.end - j.org) <= limit <= |s.m|
    requires src' == Next(src, s.m, x) && (s', r) == Relocate(s, x, limit)
    ensures Collecting(j, src', s'.m, s'.heap, done, next) && s'.fatal == s.fatal
  {
    if x != NIL && !s.m[x].mark {
      RoomToCopy(j, src, s.m, x);
      MoveKeeps(j, src, s.m, x, s.heap, done, next, src', s'.m);
    } else {
      assert s' == s && src' == src;
    }
  }

  lemma RelocateForwards(j: Job, src: seq<int>, s: State, x: int, limit: int, src': seq<int>, s': State, r: int)
    requires Layout(j, src, s.m) && OldSpace(j, src, s.m) && s.heap == j.base + |src|
    requires MayRelocate(j, x) && j.base + (j.end - j.org) <= limit <= |s.m|
    requires src' == Next(src, s.m, x) && (s', r) == Relocate(s, x, limit)
    ensures Forwarded(src', j.base, x, r)
    ensures forall k :: j.base <= k < s.heap ==> s'.m[k] == s.m[k]
  {
    if x != NIL && !s.m[x].mark {
      RoomToCopy(j, src, s.m, x);
    }
  }

  /** The cell being scanned lies in the gap between `done` and `next`: it may change. */
  lemma GapUpdate(j: Job, src: seq<int>, m: Memory, heap: int, done: int, c: Cell)
    requires Collecting(j, src, m, heap, done, done + 1)
    ensures Collecting(j, src, m[j.base + done := c], heap, done, done + 1)
  {
  }

  lemma ScanWordKeeps(j: Job, src: seq<int>, s: State, x: int, c: Cell, limit: int, done: int,
                      src1: seq<int>, s1: State, a: int, m1: Memory)
    requires Collecting(j, src, s.m, s.heap, done, done + 1) && MayRelocate(j, x)
    requires j.base + (j.end - j.org) <= limit <= |s.m|
    requires src1 == Next(src, s.m, x) && (s1, a) == Relocate(s, x, limit) && m1 == s1.m[j.base + done := c]
    ensures Collecting(j, src1, m1, s1.heap, done, done + 1) && s1.fatal == s.fatal
    ensures Forwarded(src1, j.base, x, a) && s1.m[j.base + done] == s.m[j.base + done]
  {
    RelocateKeeps(j, src, s, x, limit, done, done + 1, src1, s1, a);
    RelocateForwards(j, src, s, x, limit, src1, s1, a);
    GapUpdate(j, src1, s1.m, s1.heap, done, c);
  }

  /** Scanning the first word of the cell in the gap, which still holds the old cell c. */
  lemma Word0Keeps(j: Job, src: seq<int>, s: State, limit: int, done: int, c: Cell, s1: State) returns (src1: seq<int>)
    requires Collecting(j, src, s.m, s.heap, done, done + 1) && LiveClosed(j)
    requires j.base + (j.end - j.org) <= limit <= |s.m|
    requires c == s.m[j.base + done] == j.m0[src[done]]
    requires s1 == if Pointer0(c.kind) then ScanWord0(s, j.base + done, limit) else s
    ensures src <= src1 && Collecting(j, src1, s1.m, s1.heap, done, done + 1) && s1.fatal == s.fatal
    ensures var d := s1.m[j.base + done];
      && d == c.(w0 := d.w0)
      && (if Pointer0(c.kind) then Forwarded(src1, j.base, c.w0, d.w0) else d.w0 == c.w0)
  {
    src1 := src;
    if Pointer0(c.kind) {
      LiveWord(j, src[done], c.w0);
      src1 := Next(src, s.m, c.w0);
      var (r, a) := Relocate(s, c.w0, limit);
      ScanWordKeeps(j, src, s, c.w0, c.(w0 := a), limit, done, src1, r, a, s1.m);
    }
  }

  /** Scanning the second word; d is the cell in the gap before it. */
  lemma Word1Keeps(j: Job, src: seq<int>, s: State, limit: int, done: int, d: Cell, s1: State) returns (src1: seq<int>)
    requires Collecting(j, src, s.m, s.heap, done, done + 1) && LiveClosed(j)
    requires j.base + (j.end - j.org) <= limit <= |s.m|
    requires d == s.m[j.base + done] && d.kind == j.m0[src[done]].kind && d.w1 == j.m0[src[done]].w1
    requires s1 == if Pointer1(d.kind) then ScanWord1(s, j.base + done, limit) else s
    ensures src <= src1 && Collecting(j, src1, s1.m, s1.heap, done, done + 1) && s1.fatal == s.fatal
    ensures var e := s1.m[j.base + done];
      && e == d.(w1 := e.w1)
      && (if Pointer1(d.kind) then Forwarded(src1, j.base, d.w1, e.w1) else e.w1 == d.w1)
  {
    src1 := src;
    if Pointer1(d.kind) {
      LiveWord(j, src[done], d.w1);
      src1 := Next(src, s.m, d.w1);
      var (r, b) := Relocate(s, d.w1, limit);
      ScanWordKeeps(j, src, s, d.w1, d.(w1 := b), limit, done, src1, r, b, s1.m);
    }
  }

  /** One round of scan_newspace's loop turns the next plain copy into a relocated cell. */
  lemma ScanCellKeeps(j: Job, src: seq<int>, s: State, limit: int, done: int, s': State) returns (src': seq<int>)
    requires Collecting(j, src, s.m, s.heap, done, done) && done < |src| && LiveClosed(j)
    requires j.base + (j.end - j.org) <= limit <= |s.m|
    requires s' == ScanCell(s, j.base + done, limit)
    ensures src <= src' && Collecting(j, src', s'.m, s'.heap, done + 1, done + 1) && s'.fatal == s.fatal
  {
    var ptr, c := j.base + done, j.m0[src[done]];
    assert s.m[ptr] == c;
    OpenGap(j, src, s.m, s.heap, done);
    var s1 := if Pointer0(c.kind) then ScanWord0(s, ptr, limit) else s;
    var src1 := Word0Keeps(j, src, s, limit, done, c, s1);
    src' := Word1Keeps(j, src1, s1, limit, done, s1.m[ptr], s');
    CloseGap(j, src', s'.m, s'.heap, done);
  }

  lemma OpenGap(j: Job, src: seq<int>, m: Memory, heap: int, done: int)
    requires Collecting(j, src, m, heap, done, done) && done < |src|
    ensures Collecting(j, src, m, heap, done, done + 1)
  {
  }

  lemma CloseGap(j: Job, src: seq<int>, m: Memory, heap: int, done: int)
    requires Collecting(j, src, m, heap, done, done + 1)
    requires Relocated(src, j.base, j.m0[src[done]], m[j.base + done])
    ensures Collecting(j, src, m, heap, done + 1, done + 1)
  {
  }

  lemma LiveWord(j: Job, x: int, y: int)
    requires LiveClosed(j) && SpaceOk(j.m0, j.org, j.end) && x in j.live
    requires y == NIL || Edge(j.m0, x, y)
    ensures MayRelocate(j, y)
  {
  }

  /** scan_newspace relocates every cell of the new space, also those it adds itself. */
  lemma {:induction false} ScanNewspaceKeeps(j: Job, src: seq<int>, s: State, limit: int, done: int, s': State)
    returns (src': seq<int>)
    requires Collecting(j, src, s.m, s.heap, done, done) && LiveClosed(j)
    requires j.base + (j.end - j.org) <= limit <= |s.m|
    requires s' == ScanNewspace(s, j.base + done, limit)
    ensures src <= src' && Collecting(j, src', s'.m, s'.heap, |src'|, |src'|) && s'.fatal == s.fatal
    decreases limit - done
  {
    src' := src;
    if done < |src| {
      var s1 := ScanCell(s, j.base + done, limit);
      var src1 := ScanCellKeeps(j, src, s, limit, done, s1);
      src' := ScanNewspaceKeeps(j, src1, s1, limit, done + 1, s');
    }
  }

  /** Position by position, regs1 holds the copies of the cells in regs0. */
  ghost predicate AllForwarded(src: seq<int>, base: int, regs0: seq<int>, regs1: seq<int>) {
    |regs0| == |regs1| && forall k :: 0 <= k < |regs0| ==> Forwarded(src, base, regs0[k], regs1[k])
  }

  lemma {:induction false} ScanRegistersKeeps(j: Job, src: seq<int>, s: State, regs: seq<int>, limit: int,
                                              s': State, regs': seq<int>)
    returns (src': seq<int>)
    requires Collecting(j, src, s.m, s.heap, 0, 0) && j.base + (j.end - j.org) <= limit <= |s.m|
    requires forall k :: 0 <= k < |regs| ==> MayRelocate(j, regs[k])
    requires (s', regs') == ScanRegisters(s, regs, limit)
    ensures src <= src' && Collecting(j, src', s'.m, s'.heap, 0, 0) && s'.fatal == s.fatal
    ensures AllForwarded(src', j.base, regs, regs')
    decreases |regs|
  {
    src' := src;
    if regs != [] {
      var src1 := Next(src, s.m, regs[0]);
      var (s1, a) := Relocate(s, regs[0], limit);
      RelocateKeeps(j, src, s, regs[0], limit, 0, 0, src1, s1, a);
      RelocateForwards(j, src, s, regs[0], limit, src1, s1, a);
      src' := ScanRegistersKeeps(j, src1, s1, regs[1..], limit, s', regs'[1..]);
      ConsForwarded(src1, src', j.base, regs, regs');
    }
  }

  lemma ConsForwarded(src1: seq<int>, src': seq<int>, base: int, regs: seq<int>, regs': seq<int>)
    requires src1 <= src' && |regs| == |regs'| > 0 && Forwarded(src1, base, regs[0], regs'[0])
    requires AllForwarded(src', base, regs[1..], regs'[1..])
    ensures AllForwarded(src', base, regs, regs')
  {
    forall k | 0 <= k < |regs| ensures Forwarded(src', base, regs[k], regs'[k]) {
      if k > 0 {
        assert Forwarded(src', base, regs[1..][k - 1], regs'[1..][k - 1]);
      }
    }
  }

  ghost function RootSet(regs: seq<int>): set<int> {
    set r | r in regs
  }

  /** The registers and the cells in [lo, hi) point only to cells in [lo, hi). */
  ghost predicate HeapOk(m: Memory, regs: seq<int>, lo: int, hi: int) {
    SpaceOk(m, lo, hi) && forall k :: 0 <= k < |regs| ==> PointsInto(regs[k], lo, hi)
  }

  /** (m1, regs1) is the collected image of (m0, regs0): src lists the reachable cells of
      m0, each once, cell base+i of m1 is the relocated copy of src[i], and the
      registers are redirected likewise. */
  ghost predicate Image(m0: Memory, regs0: seq<int>, m1: Memory, regs1: seq<int>, base: int, src: seq<int>) {
    && 0 < base && base + |src| <= |m1|
    && (forall i, j :: 0 <= i < j < |src| ==> src[i] != src[j])
    && (forall i :: 0 <= i < |src| ==> 0 < src[i] < |m0|)
    && (forall x :: x in src <==> Reachable(m0, RootSet(regs0), x))
    && (forall i :: 0 <= i < |src| ==> Relocated(src, base, m0[src[i]], m1[base + i]))
    && AllForwarded(src, base, regs0, regs1)
  }

  lemma RootsLive(j: Job, regs: seq<int>)
    requires HeapOk(j.m0, regs, j.org, j.end)
    requires forall x :: x in j.live <==> j.org <= x < j.end && Reachable(j.m0, RootSet(regs), x)
    ensures LiveClosed(j) && forall k :: 0 <= k < |regs| ==> MayRelocate(j, regs[k])
  {
    var roots := RootSet(regs);
    forall k | 0 <= k < |regs| ensures MayRelocate(j, regs[k]) {
      if regs[k] != NIL {
        RootReachable(j.m0, roots, regs[k]);
      }
    }
    forall x, y | x in j.live && Edge(j.m0, x, y) ensures y in j.live {
      EdgeReachable(j.m0, roots, x, y);
    }
  }

  /** Everything reachable was copied, because the copied cells are closed from the roots. */
  lemma AllCopied(j: Job, src: seq<int>, m: Memory, heap: int, regs: seq<int>, regs': seq<int>, x: int)
    requires Collecting(j, src, m, heap, |src|, |src|) && AllForwarded(src, j.base, regs, regs')
    requires Reachable(j.m0, RootSet(regs), x)
    ensures x in src
  {
    var S := set y | y in src;
    forall r | r in RootSet(regs) && r != NIL ensures r in S {
      var k :| 0 <= k < |regs| && regs[k] == r;
      assert Forwarded(src, j.base, regs[k], regs'[k]);
    }
    forall y, z | y in S && Edge(j.m0, y, z) ensures z in S {
      var i :| 0 <= i < |src| && src[i] == y;
      assert Relocated(src, j.base, j.m0[src[i]], m[j.base + i]);
    }
    ReachableInClosed(j.m0, RootSet(regs), S, x);
  }

  /** A collection into a space at least as large as the one in use never overflows,
      and its result is the image of the heap it started from. */
  lemma CollectImage(m: Memory, regs: seq<int>, org: int, end: int, base: int, limit: int, s: State, regs': seq<int>)
    returns (src: seq<int>)
    requires HeapOk(m, regs, org, end) && 0 < base && base + (end - org) <= limit <= |m|
    requires limit <= org || end <= base
    requires (s, regs') == Collect(m, regs, base, limit)
    ensures !s.fatal && s.heap == base + |src| && |src| <= end - org
    ensures Image(m, regs, s.m, regs', base, src)
  {
    var j := Job(m, (set x | org <= x < end && Reachable(m, RootSet(regs), x)), org, end, base);
    RootsLive(j, regs);
    var s0 := State(m, base, false);
    assert Collecting(j, [], s0.m, s0.heap, 0, 0);
    var (s1, r) := ScanRegisters(s0, regs, limit);
    var src1 := ScanRegistersKeeps(j, [], s0, regs, limit, s1, regs');
    src := ScanNewspaceKeeps(j, src1, s1, limit, 0, s);
    CopiedImage(j, src, s.m, s.heap, regs, regs', src1);
  }

  lemma CopiedImage(j: Job, src: seq<int>, m: Memory, heap: int, regs: seq<int>, regs': seq<int>, src1: seq<int>)
    requires Collecting(j, src, m, heap, |src|, |src|) && src1 <= src && AllForwarded(src1, j.base, regs, regs')
    requires forall x :: x in j.live <==> j.org <= x < j.end && Reachable(j.m0, RootSet(regs), x)
    ensures Image(j.m0, regs, m, regs', j.base, src)
  {
    assert AllForwarded(src, j.base, regs, regs');
    CopiedExactly(j, src, m, heap, regs, regs');
    CopiedOnce(j, src, m);
  }

  lemma CopiedExactly(j: Job, src: seq<int>, m: Memory, heap: int, regs: seq<int>, regs': seq<int>)
    requires Collecting(j, src, m, heap, |src|, |src|) && AllForwarded(src, j.base, regs, regs')
    requires forall x :: x in j.live <==> j.org <= x < j.end && Reachable(j.m0, RootSet(regs), x)
    ensures forall x :: x in src <==> Reachable(j.m0, RootSet(regs), x)
  {
    forall x ensures x in src <==> Reachable(j.m0, RootSet(regs), x) {
      if x in src {
        assert x in j.live;
      } else if Reachable(j.m0, RootSet(regs), x) {
        AllCopied(j, src, m, heap, regs, regs', x);
      }
    }
  }

  lemma CopiedOnce(j: Job, src: seq<int>, m: Memory)
    requires Layout(j, src, m) && OldSpace(j, src, m)
    ensures forall i, k :: 0 <= i < k < |src| ==> src[i] != src[k]
  {
  }

  /** Following pointer words from p: true takes car, env or nothing, false cdr, code or vcell. */
  function Walk(m: Memory, p: int, path: seq<bool>): int
    decreases |path|
  {
    if path == [] then p
    else if !(0 < p < |m|) then NIL
    else if path[0] then (if Pointer0(m[p].kind) then Walk(m, m[p].w0, path[1..]) else NIL)
    else (if Pointer1(m[p].kind) then Walk(m, m[p].w1, path[1..]) else NIL)
  }

  /** Two cells agree on everything but where their pointer words point. */
  predicate SameData(c: Cell, d: Cell) {
    && c.kind == d.kind
    && (Pointer0(c.kind) || c.w0 == d.w0)
    && (Pointer1(c.kind) || c.w1 == d.w1)
  }

  lemma {:induction false} WalkForwarded(m0: Memory, regs0: seq<int>, m1: Memory, regs1: seq<int>,
                                         base: int, src: seq<int>, p: int, q: int, path: seq<bool>)
    requires Image(m0, regs0, m1, regs1, base, src) && Forwarded(src, base, p, q)
    ensures Forwarded(src, base, Walk(m0, p, path), Walk(m1, q, path))
    decreases |path|
  {
    if path != [] && p != NIL {
      var c, d := m0[p], m1[q];
      assert Relocated(src, base, m0[src[q - base]], m1[base + (q - base)]);
      if path[0] && Pointer0(c.kind) {
        WalkForwarded(m0, regs0, m1, regs1, base, src, c.w0, d.w0, path[1..]);
      } else if !path[0] && Pointer1(c.kind) {
        WalkForwarded(m0, regs0, m1, regs1, base, src, c.w1, d.w1, path[1..]);
      }
    }
  }

  /** Forwarding is a one-to-one correspondence between old and new addresses. */
  lemma ForwardedUnique(m0: Memory, regs0: seq<int>, m1: Memory, regs1: seq<int>, base: int, src: seq<int>,
                        p: int, q: int, p': int, q': int)
    requires Image(m0, regs0, m1, regs1, base, src)
    requires Forwarded(src, base, p, q) && Forwarded(src, base, p', q')
    ensures p == p' <==> q == q'
    ensures p == NIL <==> q == NIL
    ensures p != NIL ==> base <= q < base + |src| && p in src && SameData(m0[p], m1[q])
  {
    if p != NIL {
      assert Relocated(src, base, m0[src[q - base]], m1[base + (q - base)]);
    }
  }

  /** The collected graph is the old graph: every walk from a register ends in a cell with
      the same data, on NIL exactly when it did, and two walks meet in the new heap if
      and only if they met in the old one, so sharing and cycles are kept. */
  lemma CollectPreservesGraph(m: Memory, regs: seq<int>, org: int, end: int, base: int, limit: int,
                              s: State, regs': seq<int>, k: int, a: seq<bool>, l: int, b: seq<bool>)
    requires HeapOk(m, regs, org, end) && 0 < base && base + (end - org) <= limit <= |m|
    requires limit <= org || end <= base
    requires (s, regs') == Collect(m, regs, base, limit) && 0 <= k < |regs| && 0 <= l < |regs|
    ensures var x, x' := Walk(m, regs[k], a), Walk(s.m, regs'[k], a);
      && (x == NIL <==> x' == NIL)
      && (x != NIL ==> org <= x < end && base <= x' < s.heap && SameData(m[x], s.m[x']))
      && (x == Walk(m, regs[l], b) <==> x' == Walk(s.m, regs'[l], b))
  {
    var src := CollectImage(m, regs, org, end, base, limit, s, regs');
    var x, x' := Walk(m, regs[k], a), Walk(s.m, regs'[k], a);
    WalkForwarded(m, regs, s.m, regs', base, src, regs[k], regs'[k], a);
    WalkForwarded(m, regs, s.m, regs', base, src, regs[l], regs'[l], b);
    ForwardedUnique(m, regs, s.m, regs', base, src, x, x', Walk(m, regs[l], b), Walk(s.m, regs'[l], b));
    if x != NIL {
      LiveInSpace(m, regs, org, end, x);
    }
  }

  /** What is redirected in a copied cell: both words of a pair or a closure, the value of a symbol and not its name, and no word of
      a number or a built-in. */
  lemma CopiedByKind(m0: Memory, regs0: seq<int>, m1: Memory, regs1: seq<int>, base: int, src: seq<int>, i: int)
    requires Image(m0, regs0, m1, regs1, base, src) && 0 <= i < |src|
    ensures var c, d := m0[src[i]], m1[base + i];
      d.kind == c.kind && match c.kind {
        case Cons | Closure => Forwarded(src, base, c.w0, d.w0) && Forwarded(src, base, c.w1, d.w1)
        case Symbol => d.w0 == c.w0 && Forwarded(src, base, c.w1, d.w1)
        case _ => d.w0 == c.w0 && d.w1 == c.w1
      }
  {
  }

  /** A cell that no register, pair, closure or value of a symbol names is left behind. */
  lemma LeftByKind(m0: Memory, regs0: seq<int>, m1: Memory, regs1: seq<int>, base: int, src: seq<int>, x: int)
    requires Image(m0, regs0, m1, regs1, base, src) && x != NIL && x !in regs0
    requires forall y :: 0 < y < |m0| && y != x ==>
      match m0[y].kind {
        case Cons | Closure => m0[y].w0 != x && m0[y].w1 != x
        case Symbol => m0[y].w1 != x
        case _ => true
      }
    ensures x !in src
  {
    var roots := RootSet(regs0);
    if p: seq<int> :| IsPath(m0, roots, p) && p[|p| - 1] == x {
      NotNamed(m0, roots, p, x);
    }
  }

  lemma LiveInSpace(m: Memory, regs: seq<int>, org: int, end: int, x: int)
    requires HeapOk(m, regs, org, end) && Reachable(m, RootSet(regs), x)
    ensures org <= x < end
  {
    var S := set y | org <= y < end && PointsInto(y, org, end);
    ReachableInClosed(m, RootSet(regs), S, x);
  }

  /** After a collection every register and every cell in use points into the new space. */
  lemma ImageHeapOk(m0: Memory, regs0: seq<int>, m1: Memory, regs1: seq<int>, base: int, src: seq<int>)
    requires Image(m0, regs0, m1, regs1, base, src)
    ensures HeapOk(m1, regs1, base, base + |src|)
  {
    forall x | base <= x < base + |src|
      ensures !m1[x].mark
      ensures Pointer0(m1[x].kind) ==> PointsInto(m1[x].w0, base, base + |src|)
      ensures Pointer1(m1[x].kind) ==> PointsInto(m1[x].w1, base, base + |src|)
    {
      assert Relocated(src, base, m0[src[x - base]], m1[base + (x - base)]);
    }
    forall k | 0 <= k < |regs1| ensures PointsInto(regs1[k], base, base + |src|) {
      assert Forwarded(src, base, regs0[k], regs1[k]);
    }
  }

  class Heap {
    const heapSize: nat
    const mem: array<Cell>   // heaps[0] at addresses 1..heapSize, heaps[1] behind it
    const regs: array<int>   // the protected registers, in scanning order
    var heap: int
    var heapOrg: int
    var heapEnd: int
    var fatal: bool          // gc_fatal_error was called

    constructor (n: nat, nregs: nat)
      ensures Valid() && fresh(mem) && fresh(regs) && heapSize == n && regs.Length == nregs
    {
      heapSize := n;
      mem := new Cell[2 * n + 1](_ => Cell(false, FreeCell, 0, 0));
      regs := new int[nregs](_ => NIL);
      heap, heapOrg, heapEnd, fatal := 1, 1, 1 + n, false;
    }

    ghost predicate Shape()
      reads this
    {
      && mem.Length == 2 * heapSize + 1
      && (heapOrg == 1 || heapOrg == 1 + heapSize)
      && heapEnd == heapOrg + heapSize && heapOrg <= heap <= heapEnd
    }

    ghost predicate Valid()
      reads this, mem, regs
    {
      Shape() && !fatal && HeapOk(mem[..], regs[..], heapOrg, heap)
    }

    ghost function Now(): State
      reads this, mem
    {
      State(mem[..], heap, fatal)
    }

    method GcRelocate(x: int) returns (nw: int)
      requires Shape()
      modifies this`heap, this`fatal, mem
      ensures Shape() && (Now(), nw) == Relocate(old(Now()), x, heapEnd)
    {
      if x == NIL {
        return NIL;
      }
      if !(0 < x < mem.Length) {
        fatal := true;
        return NIL;
      }
      if mem[x].mark {
        return mem[x].w0;
      }
      nw := heap;
      if nw >= heapEnd {
        fatal := true;
        return NIL;
      }
      heap := nw + 1;
      mem[nw] := mem[x];
      mem[x] := mem[x].(mark := true, w0 := nw);
    }

    method GetNewspace() returns (newspace: int)
      requires Shape()
      modifies this`heap, this`heapOrg, this`heapEnd
      ensures Shape() && heap == heapOrg == newspace
      ensures newspace == if old(heapOrg) == 1 then 1 + heapSize else 1
    {
      newspace := if heapOrg == 1 then 1 + heapSize else 1;
      heap := newspace;
      heapOrg := heap;
      heapEnd := heap + heapSize;
    }

    method ScanRegistersInPlace()
      requires Shape()
      modifies this`heap, this`fatal, mem, regs
      ensures Shape() && (Now(), regs[..]) == ScanRegisters(old(Now()), old(regs[..]), heapEnd)
    {
      ghost var goal := ScanRegisters(Now(), regs[..], heapEnd);
      var j := 0;
      assert regs[0..] == regs[..] && regs[..0] == [];
      RegistersStart(Now(), regs[..], heapEnd);
      while j < regs.Length
        invariant 0 <= j <= regs.Length && Shape()
        invariant RegistersLeft(goal, regs[..j], Now(), regs[j..], heapEnd)
      {
        ghost var done, rest, s := regs[..j], regs[j..], Now();
        var r := GcRelocate(regs[j]);
        regs[j] := r;
        RegistersStep(goal, done, s, rest, heapEnd, Now(), r);
        assert rest[1..] == regs[j + 1..];
        assert regs[..j + 1] == done + [r];
        j := j + 1;
      }
      assert regs[..j] == regs[..] && regs[j..] == [];
      RegistersEnd(goal, regs[..], Now(), heapEnd);
    }

    method ScanNewspaceInPlace(newspace: int)
      requires Shape() && heapOrg == newspace
      modifies this`heap, this`fatal, mem
      ensures Shape() && Now() == ScanNewspace(old(Now()), newspace, heapEnd)
    {
      var ptr := newspace;
      while ptr < heap
        invariant heapOrg <= ptr <= heap && Shape()
        invariant ScanNewspace(old(Now()), newspace, heapEnd) == ScanNewspace(Now(), ptr, heapEnd)
        decreases heapEnd - ptr
      {
        ScanCellInPlace(ptr);
        ptr := ptr + 1;
      }
    }

    method ScanCellInPlace(ptr: int)
      requires Shape() && heapOrg <= ptr < heap
      modifies this`heap, this`fatal, mem
      ensures Shape() && old(heap) <= heap && Now() == ScanCell(old(Now()), ptr, heapEnd)
    {
      match mem[ptr].kind
      case Cons | Closure =>
        var a := GcRelocate(mem[ptr].w0);
        mem[ptr] := mem[ptr].(w0 := a);
        var b := GcRelocate(mem[ptr].w1);
        mem[ptr] := mem[ptr].(w1 := b);
      case Symbol =>
        var b := GcRelocate(mem[ptr].w1);
        mem[ptr] := mem[ptr].(w1 := b);
      case _ =>
    }

    /** The collector: the heap afterwards is the image of the heap before. */
    method GcStopAndCopy() returns (ghost src: seq<int>)
      requires Valid()
      modifies this, mem, regs
      ensures Valid() && heap == heapOrg + |src|
      ensures heapOrg == if old(heapOrg) == 1 then 1 + heapSize else 1
      ensures (Now(), regs[..]) == Collect(old(mem[..]), old(regs[..]), heapOrg, heapEnd)
      ensures Image(old(mem[..]), old(regs[..]), mem[..], regs[..], heapOrg, src)
    {
      ghost var m0, regs0 := mem[..], regs[..];
      var newspace := GetNewspace();
      ScanRegistersInPlace();
      ScanNewspaceInPlace(newspace);
      ghost var m1, regs1 := mem[..], regs[..];
      src := CollectImage(m0, regs0, old(heapOrg), old(heap), newspace, heapEnd, Now(), regs1);
      ImageHeapOk(m0, regs0, m1, regs1, newspace, src);
    }
  }
}
