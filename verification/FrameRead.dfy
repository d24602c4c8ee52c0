/** Reading a frame (src/lib/IMdkit/FrameMgr.c, _FrameMgrGetToken and
    FrameMgrIsIterLoopEnd): what holds between two calls. */
module FrameRead {
  import opened FrameTemplate
  import opened FrameCursor
  import opened FrameTokens
  import opened FrameWalk
  import opened FrameSetup
  import opened FrameRequests
  import opened FrameEncode
  import opened FrameLoopEnd
  import opened FrameElement

  /** The list that comes next, paddings apart: its record, or -1. */
  function Pending(t: Template, i: int): int
    decreases |t| - i
  {
    if !(0 <= i < |t|) then -1
    else if t[i].Iter? then i
    else if t[i].Padding? then Pending(t, i + 1)
    else -1
  }

  /** The list at record i has its counter before it, with paddings only in between. */
  predicate Counted(t: Template, i: int, j: int)
    decreases j
  {
    0 <= j < |t| && ((t[j].Padding? && Counted(t, i, j - 1)) || (t[j].Counter? && j + t[j].offset == i))
  }

  /** An inner frame that is no list element begins and ends in a datum, with no padding before it. */
  predicate FrameOk(t: Template, i: int) {
    && Points(t, i) && ElementOk(t[i + 1].sub) && !t[i + 1].sub[|t[i + 1].sub| - 2].Padding?
    && (i > 0 ==> !t[i - 1].Padding?)
  }

  predicate ReadableRecord(t: Template, i: int)
    requires 0 <= i < |t| - 1
  {
    match t[i]
    case Bits(_) => true
    case Barray => i > 0 && t[i - 1].Bits? && (i > 1 ==> !t[i - 2].Iter?)
    case Counter(_, isByteLen, offset) => isByteLen && offset > 0 && Pending(t, i + 1) == i + offset
    case Padding(_, _) => true
    case Iter => Counted(t, i, i - 1) && RepeatsOk(t, i + 1)
    case Pointer => (i > 0 && t[i - 1].Iter?) || FrameOk(t, i)
    case PtrItem(_) => true
    case Eol => false
  }

  /** The templates of the requests a server reads: every list has a byte counter of its
      own, and a byte string comes after a number. */
  predicate Readable(t: Template) {
    CodecOk(t) && forall i :: 0 <= i < |t| - 1 ==> ReadableRecord(t, i)
  }

  /** No list is empty, and the counters hold their lengths. */
  predicate Sendable(t: Template, d: seq<Field>) {
    && (forall i :: 0 <= i < |t| && t[i].Iter? ==> ElemsOf(FieldAt(d, i)) != [])
    && (forall i :: 0 <= i < |t| && t[i].Counter? ==> CountOf(t, d, i) < Limit(t[i].width))
  }

  lemma {:induction false} PendingIsList(t: Template, i: int)
    requires Pending(t, i) >= 0
    ensures i <= Pending(t, i) < |t| && t[Pending(t, i)].Iter?
    decreases |t| - i
  {
    if !t[i].Iter? {
      PendingIsList(t, i + 1);
    }
  }

  lemma {:induction false} CountedBack(t: Template, p: int, j: int)
    requires Pending(t, j + 1) == p >= 0 && Counted(t, p, p - 1) && 0 <= j + 1
    ensures Counted(t, p, j)
    decreases |t| - j
  {
    PendingIsList(t, j + 1);
    if j + 1 < p {
      CountedBack(t, p, j + 1);
    }
  }

  /** The counter of a list. */
  lemma {:induction false} CounterOf(t: Template, p: int, j: int) returns (c: int)
    requires Readable(t) && Counted(t, p, j) && j < |t| - 1
    ensures 0 <= c <= j && t[c].Counter? && t[c].isByteLen && c + t[c].offset == p && Boundary(t, c)
    decreases j
  {
    if t[j].Counter? {
      c := j;
      assert ReadableRecord(t, c);
      if c > 0 {
        assert RecordOk(t, c - 1);
      }
    } else {
      c := CounterOf(t, p, j - 1);
    }
  }

  /** No list comes next after a record that is no counter and no padding. */
  lemma NonePending(t: Template, j: int)
    requires Readable(t) && -1 <= j < |t| - 1 && (j >= 0 ==> !t[j].Counter? && !t[j].Padding?)
    ensures Pending(t, j + 1) < 0
  {
    var p := Pending(t, j + 1);
    if p >= 0 {
      PendingIsList(t, j + 1);
      assert ReadableRecord(t, p);
      CountedBack(t, p, j);
    }
  }

  // The state between two calls.

  /** An item that has been read. */
  ghost predicate Passed(t: Template, slots: map<int, Slot>, d: seq<Field>, j: int)
    requires 0 <= j < |t|
  {
    && ItemFilled(t, slots, d, j)
    && (t[j].Iter? ==>
        && slots[j].List?
        && forall k :: 0 <= k < |ElemsOf(FieldAt(d, j))| ==> ElementDone(t, j + 1, ListAt(slots, j).slots, k, ElemsOf(FieldAt(d, j))[k]))
    && (t[j].Pointer? ==> slots[j].Sub?)
  }

  function Left(t: Template, i: int, it: Loop, es: seq<Field>): int {
    TokensSize(LoopRest(t, i, it, es))
  }

  /** The list at record p has told its length and is not done.  While bytes of it are
      left it may grow, and its counter knows how many. */
  ghost predicate ListState(t: Template, p: int, slots: map<int, Slot>, es: seq<Field>, iters: seq<Counting>) {
    && p in slots && slots[p].List?
    && var it := slots[p].it;
    && ListReading(t, p + 1, it, es) && Closes(t, p + 1, it, es)
    && iters == (if it.exp then [Counting(p, !it.start, ElemsSize(t, p + 1, es) - Left(t, p + 1, it, es), ElemsSize(t, p + 1, es))] else [])
    && (it.start ==> it.exp && it.cur == 0 && (Points(t, p + 1) ==> SubAt(it.slots, 0) == FreshInst()))
  }

  ghost predicate Before(t: Template, slots: map<int, Slot>, d: seq<Field>, i: int) {
    forall j :: 0 <= j < i && Boundary(t, j) && j < |t| ==> Passed(t, slots, d, j)
  }

  /** Nothing is known of the records after i, but for record p. */
  ghost predicate After(t: Template, slots: map<int, Slot>, i: int, p: int) {
    forall j :: i < j < |t| && j != p ==> ViewAt(slots, j) == ViewAt(map[], j)
  }

  ghost predicate Here(t: Template, slots: map<int, Slot>, d: seq<Field>, i: int, iters: seq<Counting>) {
    var p := Pending(t, i);
    if p < 0 then iters == []
    else ListState(t, p, slots, ElemsOf(FieldAt(d, p)), iters) && (i < p ==> ListAt(slots, p).start)
  }

  /** The inner frame at record i is being read, or has been. */
  ghost predicate FrameState(t: Template, slots: map<int, Slot>, d: seq<Field>, i: int) {
    Points(t, i) && Reading(t[i + 1].sub, SubAt(slots, i), FieldsOf(FieldAt(d, i)))
  }

  ghost predicate State(t: Template, s: Inst, d: seq<Field>, iters: seq<Counting>) {
    && Boundary(t, s.cur)
    && Before(t, s.slots, d, s.cur) && After(t, s.slots, s.cur, Pending(t, s.cur)) && Here(t, s.slots, d, s.cur, iters)
    && (t[s.cur].Barray? ==> SizeSets(SizeAt(s.slots, s.cur), FieldAt(d, s.cur)))
    && (t[s.cur].Pointer? ==> FrameState(t, s.slots, d, s.cur))
  }

  /** The inner frame at the cursor has not been begun. */
  predicate FrameFresh(t: Template, s: Inst) {
    0 <= s.cur < |t| && (t[s.cur].Pointer? ==> SubAt(s.slots, s.cur) == FreshInst())
  }

  lemma FrameHere(t: Template, i: int)
    requires Readable(t) && Boundary(t, i) && t[i].Pointer?
    ensures i < |t| - 2 && FrameOk(t, i) && Increment(t, i) == i + 2 && Boundary(t, i + 2) && Pending(t, i) < 0 && Pending(t, i + 2) < 0
    ensures !t[i + 2].Barray? && !t[i + 2].Iter?
  {
    assert ReadableRecord(t, i) && RecordOk(t, i);
    DecrementUndoesIncrement(t, i);
    NonePending(t, i + 1);
    if i + 2 < |t| - 1 {
      assert ReadableRecord(t, i + 2);
    }
  }

  lemma FrameBegins(t: Template, slots: map<int, Slot>, d: seq<Field>, i: int)
    requires Readable(t) && Boundary(t, i) && ViewAt(slots, i) == ViewAt(map[], i)
    ensures t[i].Pointer? ==> FrameState(t, slots, d, i)
  {
    if t[i].Pointer? {
      FrameHere(t, i);
      ElementFresh(t[i + 1].sub, FieldsOf(FieldAt(d, i)));
    }
  }

  lemma StateOf(t: Template, s: Inst, d: seq<Field>, i: int, slots: map<int, Slot>, p: int, iters: seq<Counting>)
    requires s == Inst(i, slots) && p == Pending(t, i) && Boundary(t, i)
    requires Before(t, slots, d, i) && After(t, slots, i, p) && Here(t, slots, d, i, iters)
    requires t[i].Barray? ==> SizeSets(SizeAt(slots, i), FieldAt(d, i))
    requires t[i].Pointer? ==> FrameState(t, slots, d, i)
    ensures State(t, s, d, iters)
  {
  }

  lemma HereList(t: Template, slots: map<int, Slot>, d: seq<Field>, i: int, p: int, es: seq<Field>, iters: seq<Counting>)
    requires p == Pending(t, i) >= 0 && es == ElemsOf(FieldAt(d, p)) && ListState(t, p, slots, es, iters)
    requires i < p ==> ListAt(slots, p).start
    ensures Here(t, slots, d, i, iters)
  {
  }

  lemma PassedSame(t: Template, slots: map<int, Slot>, slots': map<int, Slot>, d: seq<Field>, j: int)
    requires 0 <= j < |t| && Passed(t, slots, d, j) && (j in slots ==> j in slots' && slots'[j] == slots[j])
    requires j !in slots ==> j !in slots'
    ensures Passed(t, slots', d, j)
  {
    assert ViewAt(slots', j) == ViewAt(slots, j);
  }

  lemma BeforeStep(t: Template, slots: map<int, Slot>, d: seq<Field>, i: int, k: int, slot: Slot, slots': map<int, Slot>, i': int)
    requires Before(t, slots, d, i) && slots' == slots[k := slot] && k >= i && 0 <= i < i'
    requires 0 <= i < |t| && Passed(t, slots', d, i) && forall j :: i < j < i' ==> !Boundary(t, j)
    ensures Before(t, slots', d, i')
  {
    forall j | 0 <= j < i' && Boundary(t, j) && j < |t| ensures Passed(t, slots', d, j) {
      if j < i {
        assert Passed(t, slots, d, j);
        PassedSame(t, slots, slots', d, j);
      }
    }
  }

  /** A reader starts with nothing known and everything to come. */
  lemma StartState(t: Template, d: seq<Field>)
    requires Readable(t)
    ensures State(t, FreshInst(), d, []) && Rest(t, FreshInst(), d) == TokensFrom(t, d, 0)
  {
    StartBoundary(t);
    FreshRewound(t);
    RestRewound(t, FreshInst(), d);
    FrameBegins(t, map[], d, 0);
    if |t| > 1 {
      NonePending(t, -1);
    }
  }

  lemma PassedFilled(t: Template, s: Inst, d: seq<Field>, i: int)
    requires 0 <= i <= |t| && Before(t, s.slots, d, i)
    ensures FilledTo(t, s, d, i)
  {
    forall j | 0 <= j < i && Boundary(t, j) && j < |t| - 1 ensures ItemFilled(t, s.slots, d, j) {
      assert Passed(t, s.slots, d, j);
    }
  }

  lemma PlainInfo(t: Template, s: Inst, d: seq<Field>, info: Info, s': Inst)
    requires Readable(t) && Boundary(t, s.cur) && s.cur < |t| - 1 && (info, s') == InstNext(t, s)
    requires Before(t, s.slots, d, s.cur)
    requires t[s.cur].Bits? || t[s.cur].Padding? || (t[s.cur].Barray? && SizeAt(s.slots, s.cur) == |BytesOf(FieldAt(d, s.cur))|)
    ensures s' == s.(cur := s.cur + 1)
    ensures Rest(t, s, d) != [] && Reports(info, Rest(t, s, d)[0]) && TokensFrom(t, d, s.cur + 1) == Rest(t, s, d)[1..]
  {
    PassedFilled(t, s, d, s.cur);
    SimpleNext(t, s, d, s.cur);
    SimpleTokens(t, d, s.cur);
    assert Rest(t, s, d) == TokensFrom(t, d, s.cur);
  }

  /** Reading a number, a byte string of known size, or a padding. */
  lemma PlainStep(t: Template, s: Inst, d: seq<Field>, iters: seq<Counting>, s': Inst)
    requires Readable(t) && State(t, s, d, iters) && s.cur < |t| - 1 && s' == s.(cur := s.cur + 1)
    requires t[s.cur].Bits? || t[s.cur].Padding? || (t[s.cur].Barray? && SizeAt(s.slots, s.cur) != NO_VALUE)
    ensures State(t, s', d, iters)
  {
    var i := s.cur;
    assert RecordOk(t, i);
    DecrementUndoesIncrement(t, i);
    if !t[i].Padding? {
      NonePending(t, i);
    }
    forall j | 0 <= j < i + 1 && Boundary(t, j) ensures Passed(t, s'.slots, d, j) {
      assert j < i ==> Passed(t, s.slots, d, j);
    }
    if t[i + 1].Barray? || t[i + 1].Pointer? {
      assert ViewAt(s.slots, i + 1) == ViewAt(map[], i + 1);
      FrameBegins(t, s.slots, d, i + 1);
    }
  }

  /** A list whose counter has been read, but nothing of it. */
  lemma ListBegins(t: Template, p: int, slots: map<int, Slot>, es: seq<Field>, it: Loop)
    requires RepeatsOk(t, p + 1) && 0 <= p && es != [] && it == Loop(0, true, 0, map[], true)
    ensures ListState(t, p, slots[p := List(it)], es, [Counting(p, false, 0, ElemsSize(t, p + 1, es))])
  {
    FreshRest(t, p + 1, it, es);
    assert es == [es[0]] + es[1..];
    assert LoopRest(t, p + 1, it, es) == ElemsTokens(t, p + 1, es);
    ElemsTokensSize(t, p + 1, es);
  }

  /** What the cursor reports at a counter. */
  lemma CounterReports(t: Template, s: Inst, d: seq<Field>, iters: seq<Counting>, r: (Info, Inst), at: int)
    requires Readable(t) && State(t, s, d, iters) && s.cur < |t| - 1 && t[s.cur].Counter?
    requires r == InstNext(t, s) && at == s.cur + t[s.cur].offset
    ensures at == Pending(t, s.cur + 1) > s.cur && at < |t| - 1 && t[at].Iter? && t[s.cur].isByteLen && RepeatsOk(t, at + 1)
    ensures Watch(r.1, at) == Inst(s.cur + 1, s.slots[at := List(Loop(0, true, 0, map[], true))])
    ensures r.0.CounterInfo? && r.0.w == t[s.cur].width && r.0.at == at
    ensures Rest(t, s, d) == [CountToken(t[s.cur].width, CountOf(t, d, s.cur))] + TokensFrom(t, d, s.cur + 1)
  {
    assert RecordCodes(t, s.cur) && ReadableRecord(t, s.cur) && ReadableRecord(t, at);
    assert ViewAt(s.slots, at) == ViewAt(map[], at);
    assert Increment(t, s.cur) == s.cur + 1;
    assert r.1 == Inst(s.cur + 1, s.slots[at := List(FreshLoop())]);
    assert ItemTokens(t, d, s.cur) == [CountToken(t[s.cur].width, CountOf(t, d, s.cur))];
    assert r.1.slots[at := List(Loop(0, true, 0, map[], true))] == s.slots[at := List(Loop(0, true, 0, map[], true))];
  }

  /** Reading a counter opens its list. */
  lemma CounterStep(t: Template, s: Inst, d: seq<Field>, iters: seq<Counting>, s': Inst, at: int, es: seq<Field>, iters': seq<Counting>)
    requires Readable(t) && State(t, s, d, iters) && s.cur < |t| - 1 && t[s.cur].Counter?
    requires s.cur < at == Pending(t, s.cur + 1) < |t| - 1 && RepeatsOk(t, at + 1) && es == ElemsOf(FieldAt(d, at)) != []
    requires s' == Inst(s.cur + 1, s.slots[at := List(Loop(0, true, 0, map[], true))])
    requires iters' == [Counting(at, false, 0, ElemsSize(t, at + 1, es))]
    ensures State(t, s', d, iters')
  {
    var i, slots := s.cur, s'.slots;
    assert RecordOk(t, i);
    DecrementUndoesIncrement(t, i);
    var it := Loop(0, true, 0, map[], true);
    ListBegins(t, at, s.slots, es, it);
    PendingIsList(t, i + 1);
    HereList(t, slots, d, i + 1, at, es, iters');
    BeforeStep(t, s.slots, d, i, at, List(it), slots, i + 1);
    AfterStep(t, s.slots, i, -1, at, List(it), slots, i + 1);
    StateOf(t, s', d, i + 1, slots, at, iters');
  }

  lemma CountIs(t: Template, d: seq<Field>, i: int, at: int, es: seq<Field>)
    requires 0 <= i < |t| && t[i].Counter? && t[i].isByteLen && at == i + t[i].offset && es == ElemsOf(FieldAt(d, at))
    ensures CountOf(t, d, i) == ElemsSize(t, at + 1, es)
  {
  }

  lemma AfterStep(t: Template, slots: map<int, Slot>, i: int, q: int, p: int, slot: Slot, slots': map<int, Slot>, i': int)
    requires After(t, slots, i, q) && (q < 0 || q == p || q <= i') && slots' == slots[p := slot] && 0 <= i <= i'
    ensures After(t, slots', i', p)
  {
    forall j | i' < j < |t| && j != p ensures ViewAt(slots', j) == ViewAt(map[], j) {
      assert ViewAt(slots, j) == ViewAt(map[], j);
    }
  }

  lemma ListNotBegun(t: Template, i: int, it: Loop, es: seq<Field>)
    requires RepeatsOk(t, i) && it.cur == 0 && (Points(t, i) ==> SubAt(it.slots, 0) == FreshInst())
    ensures LoopRest(t, i, it, es) == ElemsTokens(t, i, es)
  {
    if es != [] {
      FreshRest(t, i, it, es);
      assert es == [es[0]] + es[1..];
    }
  }

  /** A list or an inner frame that has not been begun is still to come as a whole. */
  lemma RestNotBegun(t: Template, s: Inst, d: seq<Field>, iters: seq<Counting>)
    requires Readable(t) && State(t, s, d, iters) && (t[s.cur].Iter? ==> ListAt(s.slots, s.cur).start) && FrameFresh(t, s)
    ensures Rest(t, s, d) == TokensFrom(t, d, s.cur)
  {
    var i := s.cur;
    if t[i].Pointer? {
      FrameHere(t, i);
      ElementFresh(t[i + 1].sub, FieldsOf(FieldAt(d, i)));
      assert ItemTokens(t, d, i) == TokensFrom(t[i + 1].sub, FieldsOf(FieldAt(d, i)), 0);
    } else if t[i].Iter? {
      assert RecordOk(t, i) && ReadableRecord(t, i);
      DecrementUndoesIncrement(t, i);
      ListNotBegun(t, i + 1, ListAt(s.slots, i), ElemsOf(FieldAt(d, i)));
      assert ItemTokens(t, d, i) == ElemsTokens(t, i + 1, ElemsOf(FieldAt(d, i)));
    }
  }

  lemma {:induction false} LoopRestOk(t: Template, i: int, it: Loop, es: seq<Field>)
    requires RepeatsOk(t, i) && ListReading(t, i, it, es)
    ensures TokensOk(LoopRest(t, i, it, es))
  {
    if it.cur < |es| {
      ElemsTokensOk(t, i, es[it.cur + 1..]);
      ElementRestOk(t, i, it, es);
    }
  }

  lemma {:induction false} ElementRestOk(t: Template, i: int, it: Loop, es: seq<Field>)
    requires RepeatsOk(t, i) && ListReading(t, i, it, es) && it.cur < |es|
    ensures TokensOk(ElementRest(t, i, it, es))
  {
    if Points(t, i) {
      var u, fi, f := t[i + 1].sub, SubAt(it.slots, it.cur), FieldsOf(es[it.cur]);
      ElementFresh(u, f);
      FlatBoundary(u, fi.cur);
      FrameTokensOk(u, f, fi.cur);
      assert Rest(u, fi, f) == TokensFrom(u, f, fi.cur);
    } else {
      ElemTokensOk(t, i, es[it.cur]);
    }
  }

  /** A list of which bytes are left, and one that is closed. */
  lemma OpenList(t: Template, p: int, slots: map<int, Slot>, es: seq<Field>, it: Loop, iters: seq<Counting>)
    requires p in slots && slots[p] == List(it) && ListReading(t, p + 1, it, es) && it.exp && !it.start
    requires TokensSize(LoopRest(t, p + 1, it, es)) > 0
    requires iters == [Counting(p, true, ElemsSize(t, p + 1, es) - TokensSize(LoopRest(t, p + 1, it, es)), ElemsSize(t, p + 1, es))]
    ensures ListState(t, p, slots, es, iters)
  {
  }

  lemma ClosedList(t: Template, p: int, slots: map<int, Slot>, es: seq<Field>, it: Loop)
    requires p in slots && slots[p] == List(it) && ListReading(t, p + 1, it, es) && !it.exp && !it.start
    requires TokensSize(LoopRest(t, p + 1, it, es)) <= 0
    ensures ListState(t, p, slots, es, [])
  {
  }

  /** One turn of a list's byte counter: rest are the tokens before, it' the list after
      the token of n bytes. */
  lemma CounterTurn(t: Template, p: int, es: seq<Field>, rest: seq<Token>, f: Counting, it': Loop, n: int, slots: map<int, Slot>,
                    r: (seq<Counting>, int))
    requires rest != [] && TokensOk(rest) && n == TokenSize(rest[0]) && TokensSize(rest) > 0 && it'.exp && !it'.start
    requires ListReading(t, p + 1, it', es) && LoopRest(t, p + 1, it', es) == rest[1..] && 0 <= p
    requires f == Counting(p, true, ElemsSize(t, p + 1, es) - TokensSize(rest), ElemsSize(t, p + 1, es))
    requires p in slots && slots[p] == List(it') && r == CounterIncr([f], n)
    ensures r.1 == -1 || r.1 == p
    ensures ListState(t, p, Fix(Inst(0, slots), r.1).slots, es, r.0)
    ensures ListAt(Fix(Inst(0, slots), r.1).slots, p) == it'.(exp := r.1 == -1)
  {
    OneCounter(f, n);
    if r.1 == -1 {
      OpenList(t, p, slots, es, it', r.0);
    } else {
      var it2 := it'.(exp := false);
      ClosedSame(t, p + 1, it', it2, es);
      ClosedList(t, p, slots[p := List(it2)], es, it2);
    }
  }

  /** The byte counter after a token of n bytes. */
  lemma CounterKeeps(t: Template, p: int, es: seq<Field>, iters: seq<Counting>, it: Loop, it': Loop, n: int,
                     s: Inst, s1: Inst, r: (seq<Counting>, int))
    requires RepeatsOk(t, p + 1) && 0 <= p && ListState(t, p, s.slots, es, iters) && it == ListAt(s.slots, p)
    requires LoopRest(t, p + 1, it, es) != [] && n == TokenSize(LoopRest(t, p + 1, it, es)[0])
    requires ListReading(t, p + 1, it', es) && it'.exp == it.exp && !it'.start
    requires LoopRest(t, p + 1, it', es) == LoopRest(t, p + 1, it, es)[1..]
    requires s1.slots == s.slots[p := List(it')] && r == CounterIncr(Started(iters, s, s1), n)
    ensures r.1 == -1 || r.1 == p
    ensures ListState(t, p, Fix(s1, r.1).slots, es, r.0)
    ensures ListAt(Fix(s1, r.1).slots, p) == it'.(exp := ListAt(Fix(s1, r.1).slots, p).exp)
  {
    var rest := LoopRest(t, p + 1, it, es);
    LoopRestOk(t, p + 1, it, es);
    assert ListAt(s1.slots, p) == it';
    if it.exp {
      OneStarted(iters[0], s, s1);
      assert iters == [iters[0]];
      CounterTurn(t, p, es, rest, iters[0].(counting := true), it', n, s1.slots, r);
    } else {
      assert TokenOk(rest[0]) && TokensOk(rest[1..]);
      SizeNat(rest[1..]);
    }
  }

  lemma OneStarted(f: Counting, s: Inst, s': Inst)
    ensures Started([f], s, s') == [f.(counting := f.counting || (ListAt(s.slots, f.at).start && !ListAt(s'.slots, f.at).start))]
  {
    assert [f][1..] == [];
  }

  lemma OneCounter(f: Counting, n: int)
    requires f.counting
    ensures CounterIncr([f], n) == if f.counter + n >= f.end then ([], f.at) else ([f.(counter := f.counter + n)], -1)
  {
    assert [f][1..] == [] && CounterIncr([], n) == ([], -1);
    assert [f.(counter := f.counter + n)] + [] == [f.(counter := f.counter + n)];
  }

  lemma ClosedSame(t: Template, i: int, it: Loop, it': Loop, es: seq<Field>)
    requires it' == it.(exp := it'.exp)
    ensures ListReading(t, i, it, es) ==> ListReading(t, i, it', es)
    ensures LoopRest(t, i, it', es) == LoopRest(t, i, it, es)
  {
  }

  lemma {:induction false} ListHere(t: Template, s: Inst, d: seq<Field>, iters: seq<Counting>, p: int)
    requires Readable(t) && State(t, s, d, iters) && p == s.cur && t[p].Iter?
    ensures 0 <= p < |t| - 1 && Pending(t, p) == p && RepeatsOk(t, p + 1) && p < Increment(t, p) < |t| && Boundary(t, Increment(t, p))
    ensures ListState(t, p, s.slots, ElemsOf(FieldAt(d, p)), iters) && ListAt(s.slots, p) == s.slots[p].it
    ensures ListReading(t, p + 1, ListAt(s.slots, p), ElemsOf(FieldAt(d, p))) && Closes(t, p + 1, ListAt(s.slots, p), ElemsOf(FieldAt(d, p)))
    ensures Rest(t, s, d) == LoopRest(t, p + 1, ListAt(s.slots, p), ElemsOf(FieldAt(d, p))) + TokensFrom(t, d, Increment(t, p))
  {
    assert RecordOk(t, p) && ReadableRecord(t, p);
    DecrementUndoesIncrement(t, p);
  }

  /** The state with the list at the cursor replaced. */
  lemma StateWithList(t: Template, s: Inst, d: seq<Field>, iters: seq<Counting>, p: int, slot: Slot, s': Inst, iters': seq<Counting>)
    requires Readable(t) && State(t, s, d, iters) && p == s.cur && t[p].Iter? && s' == Inst(p, s.slots[p := slot])
    requires ListState(t, p, s'.slots, ElemsOf(FieldAt(d, p)), iters')
    ensures State(t, s', d, iters')
  {
    var slots := s'.slots;
    assert Pending(t, p) == p;
    forall j | 0 <= j < p && Boundary(t, j) && j < |t| ensures Passed(t, slots, d, j) {
      assert Passed(t, s.slots, d, j);
      PassedSame(t, s.slots, slots, d, j);
    }
    AfterStep(t, s.slots, p, p, p, slot, slots, p);
    HereList(t, slots, d, p, p, ElemsOf(FieldAt(d, p)), iters');
    StateOf(t, s', d, p, slots, p, iters');
  }

  /** The cursor inside a list. */
  lemma ListCursor(t: Template, s: Inst, d: seq<Field>, iters: seq<Counting>, p: int, it: Loop, es: seq<Field>,
                   info: Info, s1: Inst, it1: Loop)
    requires Readable(t) && State(t, s, d, iters) && p == s.cur && t[p].Iter?
    requires it == ListAt(s.slots, p) && es == ElemsOf(FieldAt(d, p)) && it.cur < |es|
    requires ElementRest(t, p + 1, it, es) != [] && ListSized(t, p + 1, it)
    requires (info, s1) == InstNext(t, s) && it1 == LoopNext(t, p + 1, it).1
    ensures s1 == Inst(p, s.slots[p := List(it1)]) && ListReading(t, p + 1, it1, es) && it1.exp == it.exp && !it1.start
    ensures LoopRest(t, p + 1, it, es) != [] && Reports(info, LoopRest(t, p + 1, it, es)[0])
    ensures LoopRest(t, p + 1, it1, es) == LoopRest(t, p + 1, it, es)[1..] && ElementAfter(t, p + 1, it, es, it1)
    ensures info.PadInfo? ==> ListSized(t, p + 1, it1)
  {
    ListHere(t, s, d, iters, p);
    var r := LoopNext(t, p + 1, it);
    ListNext(t, p + 1, it, es, r.0, r.1);
    LoopRestHead(t, p + 1, it, es);
    NextAtList(t, s, p, r);
  }

  lemma NextAtList(t: Template, s: Inst, p: int, r: (Info, Loop))
    requires 0 <= p == s.cur < |t| && t[p].Iter? && r == LoopNext(t, p + 1, ListAt(s.slots, p)) && !r.0.End?
    ensures InstNext(t, s) == (r.0, Inst(p, s.slots[p := List(r.1)]))
  {
  }

  /** Reading a token of a list. */
  lemma ListTokenStep(t: Template, s: Inst, d: seq<Field>, iters: seq<Counting>, p: int, it: Loop, es: seq<Field>, n: int,
                      info: Info, s1: Inst, it1: Loop, r: (seq<Counting>, int), s': Inst)
    requires Readable(t) && State(t, s, d, iters) && p == s.cur && t[p].Iter?
    requires it == ListAt(s.slots, p) && es == ElemsOf(FieldAt(d, p)) && it.cur < |es|
    requires ElementRest(t, p + 1, it, es) != [] && ListSized(t, p + 1, it)
    requires (info, s1) == InstNext(t, s) && it1 == LoopNext(t, p + 1, it).1
    requires LoopRest(t, p + 1, it, es) != [] && n == TokenSize(LoopRest(t, p + 1, it, es)[0])
    requires r == CounterIncr(Started(iters, s, s1), n) && s' == Fix(s1, r.1)
    ensures State(t, s', d, r.0) && s'.cur == p && ListAt(s'.slots, p) == it1.(exp := ListAt(s'.slots, p).exp)
  {
    ListCursor(t, s, d, iters, p, it, es, info, s1, it1);
    ListHere(t, s, d, iters, p);
    CounterKeeps(t, p, es, iters, it, it1, n, s, s1, r);
    ListTokenState(t, s, d, iters, p, it1, s1, r, s');
  }

  lemma RestDrops(a: seq<Token>, a': seq<Token>, b: seq<Token>, rest: seq<Token>, rest': seq<Token>)
    requires a != [] && a' == a[1..] && rest == a + b && rest' == a' + b
    ensures rest != [] && rest[0] == a[0] && rest' == rest[1..]
  {
    DropConcat(a, b);
  }

  lemma RestInList(t: Template, s: Inst, d: seq<Field>, p: int)
    requires p == s.cur && 0 <= p < |t| && t[p].Iter?
    ensures Rest(t, s, d) == LoopRest(t, p + 1, ListAt(s.slots, p), ElemsOf(FieldAt(d, p))) + TokensFrom(t, d, Increment(t, p))
  {
  }

  lemma {:induction false} ListTokenRest(t: Template, s: Inst, d: seq<Field>, iters: seq<Counting>, p: int, it: Loop, es: seq<Field>,
                      s': Inst, iters': seq<Counting>, it1: Loop)
    requires Readable(t) && State(t, s, d, iters) && State(t, s', d, iters') && p == s.cur == s'.cur && t[p].Iter?
    requires it == ListAt(s.slots, p) && es == ElemsOf(FieldAt(d, p)) && ListAt(s'.slots, p) == it1.(exp := ListAt(s'.slots, p).exp)
    requires LoopRest(t, p + 1, it, es) != [] && LoopRest(t, p + 1, it1, es) == LoopRest(t, p + 1, it, es)[1..]
    ensures Rest(t, s, d) != [] && Rest(t, s, d)[0] == LoopRest(t, p + 1, it, es)[0] && Rest(t, s', d) == Rest(t, s, d)[1..]
  {
    RestInList(t, s, d, p);
    RestInList(t, s', d, p);
    ClosedSame(t, p + 1, it1, ListAt(s'.slots, p), es);
    RestDrops(LoopRest(t, p + 1, it, es), LoopRest(t, p + 1, it1, es), TokensFrom(t, d, Increment(t, p)), Rest(t, s, d), Rest(t, s', d));
  }

  lemma LoopRestHead(t: Template, i: int, it: Loop, es: seq<Field>)
    requires 0 <= it.cur < |es| && ElementRest(t, i, it, es) != []
    ensures LoopRest(t, i, it, es) != [] && LoopRest(t, i, it, es)[0] == ElementRest(t, i, it, es)[0]
  {
  }

  lemma ListTokenState(t: Template, s: Inst, d: seq<Field>, iters: seq<Counting>, p: int, it: Loop, s1: Inst,
                       r: (seq<Counting>, int), s': Inst)
    requires Readable(t) && State(t, s, d, iters) && p == s.cur && t[p].Iter? && s1 == Inst(p, s.slots[p := List(it)])
    requires s' == Fix(s1, r.1) && (r.1 == -1 || r.1 == p) && ListState(t, p, s'.slots, ElemsOf(FieldAt(d, p)), r.0)
    ensures State(t, s', d, r.0) && s'.cur == p
  {
    var slot := List(ListAt(s'.slots, p));
    assert s'.slots == s.slots[p := slot];
    StateWithList(t, s, d, iters, p, slot, s', r.0);
  }

  /** The end test steps past the list just when all of it has been read. */
  lemma TestStep(t: Template, s: Inst, d: seq<Field>, iters: seq<Counting>, p: int, it: Loop, es: seq<Field>, r: (bool, Inst))
    requires Readable(t) && State(t, s, d, iters) && p == s.cur && t[p].Iter?
    requires it == ListAt(s.slots, p) && es == ElemsOf(FieldAt(d, p)) && r == InstLoopEnd(t, s)
    ensures Rest(t, r.1, d) == Rest(t, s, d)
    ensures r.0 ==> Unread(t, p + 1, it, es) == 0 && r.1.cur == Increment(t, p) && State(t, r.1, d, iters) && FrameFresh(t, r.1)
    ensures !r.0 ==>
      && r.1.cur == p && State(t, r.1, d, iters)
      && it.cur <= ListAt(r.1.slots, p).cur < |es| && ElementRest(t, p + 1, ListAt(r.1.slots, p), es) != []
      && Unread(t, p + 1, ListAt(r.1.slots, p), es) == Unread(t, p + 1, it, es)
      && (ListAt(r.1.slots, p).cur == it.cur < |es| ==> ElementRest(t, p + 1, ListAt(r.1.slots, p), es) == ElementRest(t, p + 1, it, es))
  {
    ListHere(t, s, d, iters, p);
    var l := LoopEnd(t, p + 1, it);
    ListTest(t, p + 1, it, es, l);
    if l.0 {
      ListDone(t, s, d, iters, p, l.2, es, r.1);
    } else {
      ListReplaced(t, s, d, iters, p, it, es, l.2, r.1);
    }
  }

  lemma ListStateSame(t: Template, p: int, slots: map<int, Slot>, es: seq<Field>, iters: seq<Counting>, it: Loop, it': Loop, slots': map<int, Slot>)
    requires ListState(t, p, slots, es, iters) && it == ListAt(slots, p) && slots' == slots[p := List(it')]
    requires ListReading(t, p + 1, it', es) && LoopRest(t, p + 1, it', es) == LoopRest(t, p + 1, it, es)
    requires it' == it.(cur := it'.cur, slots := it'.slots) && Unread(t, p + 1, it', es) == Unread(t, p + 1, it, es)
    ensures ListState(t, p, slots', es, iters)
  {
  }

  /** The list at the cursor replaced by one with as much to come. */
  lemma ListReplaced(t: Template, s: Inst, d: seq<Field>, iters: seq<Counting>, p: int, it: Loop, es: seq<Field>, it': Loop, s': Inst)
    requires Readable(t) && State(t, s, d, iters) && p == s.cur && t[p].Iter?
    requires it == ListAt(s.slots, p) && es == ElemsOf(FieldAt(d, p)) && s' == Inst(p, s.slots[p := List(it')])
    requires ListReading(t, p + 1, it', es) && LoopRest(t, p + 1, it', es) == LoopRest(t, p + 1, it, es)
    requires it' == it.(cur := it'.cur, slots := it'.slots) && Unread(t, p + 1, it', es) == Unread(t, p + 1, it, es)
    ensures State(t, s', d, iters) && Rest(t, s', d) == Rest(t, s, d) && ListAt(s'.slots, p) == it'
  {
    ListHere(t, s, d, iters, p);
    ListStateSame(t, p, s.slots, es, iters, it, it', s'.slots);
    StateWithList(t, s, d, iters, p, List(it'), s', iters);
    ListHere(t, s', d, iters, p);
  }

  /** Past a list that has been read. */
  lemma ListDone(t: Template, s: Inst, d: seq<Field>, iters: seq<Counting>, p: int, it': Loop, es: seq<Field>, s': Inst)
    requires Readable(t) && State(t, s, d, iters) && p == s.cur && t[p].Iter? && es == ElemsOf(FieldAt(d, p))
    requires ListReading(t, p + 1, it', es) && it'.cur == it'.max == |es| && LoopRest(t, p + 1, ListAt(s.slots, p), es) == []
    requires it' == ListAt(s.slots, p).(cur := it'.cur, slots := it'.slots)
    requires s' == Inst(Increment(t, p), s.slots[p := List(it')])
    ensures State(t, s', d, iters) && Rest(t, s', d) == Rest(t, s, d) && FrameFresh(t, s')
  {
    ListHere(t, s, d, iters, p);
    var next, slots := Increment(t, p), s'.slots;
    ListPassed(t, s.slots, d, p, it', es, slots);
    forall j | p < j < next ensures !Boundary(t, j) {
      if Boundary(t, j) {
        NoneBetween(t, p, j);
      }
    }
    BeforeStep(t, s.slots, d, p, p, List(it'), slots, next);
    AfterStep(t, s.slots, p, p, p, List(it'), slots, next);
    BehindList(t, p);
    AfterNone(t, slots, next, p);
    assert ViewAt(s.slots, next) == ViewAt(map[], next);
    FrameBegins(t, slots, d, next);
    StateOf(t, s', d, next, slots, Pending(t, next), iters);
    RestNotBegun(t, s', d, iters);
  }

  lemma AfterNone(t: Template, slots: map<int, Slot>, i: int, p: int)
    requires After(t, slots, i, p) && p <= i
    ensures forall q :: q < 0 ==> After(t, slots, i, q)
  {
    forall q | q < 0 ensures After(t, slots, i, q) {
      forall j | i < j < |t| && j != q ensures ViewAt(slots, j) == ViewAt(map[], j) {
      }
    }
  }

  lemma ListPassed(t: Template, slots: map<int, Slot>, d: seq<Field>, p: int, it: Loop, es: seq<Field>, slots': map<int, Slot>)
    requires 0 <= p < |t| && t[p].Iter? && es == ElemsOf(FieldAt(d, p)) && slots' == slots[p := List(it)]
    requires ListReading(t, p + 1, it, es) && it.cur == it.max == |es| && !it.exp
    ensures Passed(t, slots', d, p)
  {
    forall k | 0 <= k < |es| ensures ElemFilled(t, p + 1, it.slots, k, es[k]) {
      assert ElementDone(t, p + 1, it.slots, k, es[k]);
    }
    assert ListAt(slots', p) == it;
  }

  /** No list follows a list. */
  lemma BehindList(t: Template, p: int)
    requires Readable(t) && 0 <= p < |t| - 1 && t[p].Iter?
    ensures p < Increment(t, p) < |t| && Pending(t, Increment(t, p)) < 0
  {
    assert RecordOk(t, p) && ReadableRecord(t, p);
    var next := Increment(t, p);
    if t[p + 1].Pointer? {
      assert RecordOk(t, p + 1);
      assert Increment(t, p + 1) == p + 3;
      assert next == p + 3;
    } else {
      assert Increment(t, p + 1) == p + 2;
      assert next == p + 2;
    }
    NonePending(t, next - 1);
  }

  lemma PeekAtList(t: Template, s: Inst, p: int, l: (Info, Loop))
    requires 0 <= p == s.cur < |t| && t[p].Iter? && l == LoopPeek(t, p + 1, ListAt(s.slots, p)) && !l.0.End?
    ensures InstPeek(t, s) == (l.0, Inst(p, s.slots[p := List(l.1)]))
  {
  }

  /** A look at the next token of a list. */
  lemma PeekStep(t: Template, s: Inst, d: seq<Field>, iters: seq<Counting>, p: int, it: Loop, es: seq<Field>, r: (Info, Inst))
    requires Readable(t) && State(t, s, d, iters) && p == s.cur && t[p].Iter?
    requires it == ListAt(s.slots, p) && es == ElemsOf(FieldAt(d, p)) && r == InstPeek(t, s)
    requires it.cur < |es| && ElementRest(t, p + 1, it, es) != []
    ensures Rest(t, r.1, d) == Rest(t, s, d) && r.1.cur == p && State(t, r.1, d, iters)
    ensures r.0.PadInfo? <==> ElementRest(t, p + 1, it, es)[0].PadToken?
    ensures r.0.PadInfo? ==> r.0.num == TokenSize(ElementRest(t, p + 1, it, es)[0]) && ListSized(t, p + 1, ListAt(r.1.slots, p))
    ensures ListAt(r.1.slots, p).cur == it.cur && ElementRest(t, p + 1, ListAt(r.1.slots, p), es) == ElementRest(t, p + 1, it, es)
    ensures Unread(t, p + 1, ListAt(r.1.slots, p), es) == Unread(t, p + 1, it, es)
  {
    ListHere(t, s, d, iters, p);
    var l := LoopPeek(t, p + 1, it);
    ListPeek(t, p + 1, it, es, l);
    PeekAtList(t, s, p, l);
    ListReplaced(t, s, d, iters, p, it, es, l.1, r.1);
  }

  /** FrameMgrSetSize passes by what has been read, to the item at the cursor. */
  lemma {:induction false} SetSizeReaches(t: Template, s: Inst, d: seq<Field>, num: nat, j: int, slots': map<int, Slot>)
    requires Readable(t) && Boundary(t, j) && Boundary(t, s.cur) && j <= s.cur < |t| - 1 && Before(t, s.slots, d, s.cur)
    requires ItemSetSize(t, s.slots, num, s.cur) == (true, slots')
    ensures InstSetSize(t, s, num, j) == (true, s.(slots := slots'))
    decreases s.cur - j
  {
    assert RecordOk(t, j) && ReadableRecord(t, j);
    DecrementUndoesIncrement(t, j);
    if j < s.cur {
      assert Passed(t, s.slots, d, j);
      PassedTakesNoSize(t, s.slots, d, num, j);
      NoneBetween(t, j, s.cur);
      SetSizeReaches(t, s, d, num, Increment(t, j), slots');
    }
  }

  lemma PassedTakesNoSize(t: Template, slots: map<int, Slot>, d: seq<Field>, num: nat, j: int)
    requires Readable(t) && Boundary(t, j) && j < |t| - 1 && Passed(t, slots, d, j)
    ensures ItemSetSize(t, slots, num, j) == (false, slots)
  {
    assert ReadableRecord(t, j);
    if t[j].Iter? {
      assert ListFilled(t, j + 1, ListAt(slots, j), ElemsOf(FieldAt(d, j)));
      ListFull(t, j + 1, ListAt(slots, j), ElemsOf(FieldAt(d, j)), num);
      assert slots[j := List(ListAt(slots, j))] == slots;
    } else if t[j].Pointer? {
      FrameHere(t, j);
      ElementFull(t[j + 1].sub, SubAt(slots, j), FieldsOf(FieldAt(d, j)), num, 0);
      assert slots[j := Sub(SubAt(slots, j))] == slots;
    }
  }

  /** The size of a byte string of the frame itself. */
  lemma TopSetSize(t: Template, s: Inst, d: seq<Field>, iters: seq<Counting>, num: nat, s': Inst)
    requires Readable(t) && State(t, s, d, iters) && s.cur < |t| - 1 && t[s.cur].Barray? && SizeAt(s.slots, s.cur) == NO_VALUE
    requires num == |BytesOf(FieldAt(d, s.cur))| && s' == InstSetSize(t, s, num, 0).1
    ensures InstSetSize(t, s, num, 0).0 && State(t, s', d, iters) && s'.cur == s.cur && SizeAt(s'.slots, s.cur) == num
    ensures Rest(t, s', d) == Rest(t, s, d)
  {
    var i := s.cur;
    var slots := s.slots[i := Size(num)];
    StartBoundary(t);
    SetSizeReaches(t, s, d, num, 0, slots);
    forall j | 0 <= j < i && Boundary(t, j) && j < |t| ensures Passed(t, slots, d, j) {
      assert Passed(t, s.slots, d, j);
      PassedSame(t, s.slots, slots, d, j);
    }
    forall j | i < j < |t| && j != Pending(t, i) ensures ViewAt(slots, j) == ViewAt(map[], j) {
      assert ViewAt(s.slots, j) == ViewAt(map[], j);
    }
    assert Pending(t, i) == -1;
    StateOf(t, s', d, i, slots, -1, iters);
  }

  // An inner frame that is no list element.

  /** Where the next token comes from: past an inner frame that has been read. */
  function Settled(t: Template, s: Inst): Inst {
    if Points(t, s.cur) && SubAt(s.slots, s.cur).cur == |t[s.cur + 1].sub| - 1 then
      Inst(s.cur + 2, s.slots[s.cur := Sub(SubAt(s.slots, s.cur).(cur := -1))])
    else s
  }

  /** The cursor leaves an inner frame only when asked for the next token. */
  lemma SettledState(t: Template, s: Inst, d: seq<Field>, iters: seq<Counting>, s': Inst)
    requires Readable(t) && State(t, s, d, iters) && s' == Settled(t, s)
    ensures State(t, s', d, iters) && Rest(t, s', d) == Rest(t, s, d) && InstNext(t, s') == InstNext(t, s) && Settled(t, s') == s'
    ensures s' != s ==> iters == [] && s.cur < s'.cur && FrameFresh(t, s') && t[s'.cur - 1].PtrItem?
  {
    if s' != s {
      FrameHere(t, s.cur);
      assert iters == [];
      SettledOn(t, s, d, s.cur, s');
    }
  }

  lemma SettledOn(t: Template, s: Inst, d: seq<Field>, i: int, s': Inst)
    requires Readable(t) && State(t, s, d, []) && s' == Settled(t, s) != s && i == s.cur && t[i].Pointer?
    requires FrameOk(t, i) && Boundary(t, i + 2) && Increment(t, i) == i + 2 && Pending(t, i + 2) < 0 && !t[i + 2].Barray? && !t[i + 2].Iter?
    ensures State(t, s', d, []) && Rest(t, s', d) == Rest(t, s, d) && InstNext(t, s') == InstNext(t, s) && Settled(t, s') == s'
    ensures s'.cur == i + 2 && FrameFresh(t, s')
  {
    FrameLeft(t, s, d, s');
    AfterNone(t, s'.slots, i + 2, -1);
    StateOf(t, s', d, i + 2, s'.slots, Pending(t, i + 2), []);
    RestNotBegun(t, s', d, []);
    FreshSettled(t, s');
  }

  lemma FreshSettled(t: Template, s: Inst)
    requires Readable(t) && Boundary(t, s.cur) && FrameFresh(t, s)
    ensures Settled(t, s) == s
  {
    if t[s.cur].Pointer? {
      FrameHere(t, s.cur);
    }
  }

  lemma RestAtFrame(t: Template, s: Inst, d: seq<Field>)
    requires Points(t, s.cur)
    ensures Rest(t, s, d) == Rest(t[s.cur + 1].sub, SubAt(s.slots, s.cur), FieldsOf(FieldAt(d, s.cur))) + TokensFrom(t, d, s.cur + 2)
  {
    assert Increment(t, s.cur) == s.cur + 2;
  }

  /** An inner frame that has been read. */
  lemma FrameSpent(u: Template, fi: Inst, f: seq<Field>)
    requires ElementOk(u) && Reading(u, fi, f) && fi.cur == |u| - 1
    ensures Filled(u, fi.(cur := -1), f) && Rest(u, fi, f) == [] && InstNext(u, fi) == (End, fi.(cur := -1))
  {
    FlatRest(u, fi, f);
    forall j | Boundary(u, j) && j < |u| - 1 ensures ItemFilled(u, fi.slots, f, j) {
    }
  }

  lemma FrameLeft(t: Template, s: Inst, d: seq<Field>, s': Inst)
    requires Readable(t) && State(t, s, d, []) && s' == Settled(t, s) != s && t[s.cur].Pointer?
    requires FrameOk(t, s.cur) && Boundary(t, s.cur + 2) && Increment(t, s.cur) == s.cur + 2
    ensures InstNext(t, s) == InstNext(t, s') && Rest(t, s, d) == TokensFrom(t, d, s.cur + 2)
    ensures FrameFresh(t, s') && (t[s'.cur].Pointer? ==> FrameState(t, s'.slots, d, s'.cur))
    ensures Before(t, s'.slots, d, s.cur + 2) && After(t, s'.slots, s.cur + 2, -1)
  {
    var i := s.cur;
    FrameSpent(t[i + 1].sub, SubAt(s.slots, i), FieldsOf(FieldAt(d, i)));
    RestAtFrame(t, s, d);
    AfterFrame(t, s.slots, d, i, Sub(SubAt(s.slots, i).(cur := -1)), s'.slots);
    FrameBegins(t, s'.slots, d, i + 2);
  }

  lemma AfterFrame(t: Template, slots: map<int, Slot>, d: seq<Field>, i: int, slot: Slot, slots': map<int, Slot>)
    requires Points(t, i) && Boundary(t, i + 2) && slots' == slots[i := slot] && slot.Sub? && Pending(t, i) < 0
    requires Before(t, slots, d, i) && After(t, slots, i, Pending(t, i)) && Filled(t[i + 1].sub, slot.fi, FieldsOf(FieldAt(d, i)))
    ensures Before(t, slots', d, i + 2) && After(t, slots', i + 2, -1)
    ensures ViewAt(slots', i + 2) == ViewAt(map[], i + 2)
  {
    BeforeStep(t, slots, d, i, i, slot, slots', i + 2);
    forall j | i < j < |t| ensures ViewAt(slots', j) == ViewAt(map[], j) {
      assert ViewAt(slots, j) == ViewAt(map[], j);
    }
  }

  /** The state with the inner frame at the cursor moved on. */
  lemma StateWithFrame(t: Template, s: Inst, d: seq<Field>, iters: seq<Counting>, fi: Inst, s': Inst)
    requires Readable(t) && State(t, s, d, iters) && t[s.cur].Pointer? && s' == Inst(s.cur, s.slots[s.cur := Sub(fi)])
    requires Points(t, s.cur) && Reading(t[s.cur + 1].sub, fi, FieldsOf(FieldAt(d, s.cur)))
    ensures State(t, s', d, iters)
  {
    var i, slots := s.cur, s'.slots;
    FrameHere(t, i);
    forall j | 0 <= j < i && Boundary(t, j) && j < |t| ensures Passed(t, slots, d, j) {
      assert Passed(t, s.slots, d, j);
      PassedSame(t, s.slots, slots, d, j);
    }
    forall j | i < j < |t| && j != Pending(t, i) ensures ViewAt(slots, j) == ViewAt(map[], j) {
      assert ViewAt(s.slots, j) == ViewAt(map[], j);
    }
    StateOf(t, s', d, i, slots, Pending(t, i), iters);
  }

  lemma NextAtFrame(t: Template, s: Inst, info: Info, fi: Inst)
    requires Points(t, s.cur) && (info, fi) == InstNext(t[s.cur + 1].sub, SubAt(s.slots, s.cur)) && !info.End?
    ensures InstNext(t, s) == (info, Inst(s.cur, s.slots[s.cur := Sub(fi)]))
  {
  }

  /** Reading a token of an inner frame. */
  lemma {:induction false} FrameTokenStep(t: Template, s: Inst, d: seq<Field>, iters: seq<Counting>, u: Template, fi: Inst, info: Info, s': Inst)
    requires Readable(t) && State(t, s, d, iters) && Points(t, s.cur) && u == t[s.cur + 1].sub && fi == SubAt(s.slots, s.cur)
    requires fi.cur < |u| - 1 && Sized(u, fi) && (info, s') == InstNext(t, s)
    ensures iters == [] && State(t, s', d, []) && s' == Inst(s.cur, s.slots[s.cur := Sub(fi.(cur := fi.cur + 1))])
    ensures var rest := Rest(u, fi, FieldsOf(FieldAt(d, s.cur)));
      rest != [] && Reports(info, rest[0]) && Rest(t, s, d) != [] && Rest(t, s, d)[0] == rest[0] && Rest(t, s', d) == Rest(t, s, d)[1..]
  {
    var f := FieldsOf(FieldAt(d, s.cur));
    FrameHere(t, s.cur);
    var (info1, fi1) := InstNext(u, fi);
    ElementNext(u, fi, f, info1, fi1);
    NextAtFrame(t, s, info1, fi1);
    StateWithFrame(t, s, d, iters, fi1, s');
    FrameRestMoves(t, s, d, s.cur, fi1, s');
  }

  lemma FrameRestMoves(t: Template, s: Inst, d: seq<Field>, i: int, fi: Inst, s': Inst)
    requires Points(t, i) && i == s.cur && s' == Inst(i, s.slots[i := Sub(fi)])
    requires var u, f := t[i + 1].sub, FieldsOf(FieldAt(d, i));
      Rest(u, SubAt(s.slots, i), f) != [] && Rest(u, fi, f) == Rest(u, SubAt(s.slots, i), f)[1..]
    ensures Rest(t, s, d) != [] && Rest(t, s, d)[0] == Rest(t[i + 1].sub, SubAt(s.slots, i), FieldsOf(FieldAt(d, i)))[0]
    ensures Rest(t, s', d) == Rest(t, s, d)[1..]
  {
    RestAtFrame(t, s, d);
    RestAtFrame(t, s', d);
    assert SubAt(s'.slots, i) == fi;
    DropConcat(Rest(t[i + 1].sub, SubAt(s.slots, i), FieldsOf(FieldAt(d, i))), TokensFrom(t, d, i + 2));
  }

  /** The size of a byte string of an inner frame. */
  lemma {:induction false} FrameSetsSize(t: Template, s: Inst, d: seq<Field>, iters: seq<Counting>, u: Template, fi: Inst, num: nat, s': Inst)
    requires Readable(t) && State(t, s, d, iters) && Points(t, s.cur) && u == t[s.cur + 1].sub && fi == SubAt(s.slots, s.cur)
    requires u[fi.cur].Barray? && !Sized(u, fi) && num == |BytesOf(FieldAt(FieldsOf(FieldAt(d, s.cur)), fi.cur))|
    requires s' == InstSetSize(t, s, num, 0).1
    ensures s' == Inst(s.cur, s.slots[s.cur := Sub(fi.(slots := fi.slots[fi.cur := Size(num)]))])
    ensures State(t, s', d, iters) && Rest(t, s', d) == Rest(t, s, d) && Sized(u, SubAt(s'.slots, s.cur))
  {
    var f, fi1 := FieldsOf(FieldAt(d, s.cur)), fi.(slots := fi.slots[fi.cur := Size(num)]);
    FrameHere(t, s.cur);
    InnerSetsSize(u, fi, f, num, fi1);
    SizeReachesFrame(t, s, d, fi1, num);
    StateWithFrame(t, s, d, iters, fi1, s');
    FrameRestSame(t, s, d, fi1, s');
  }

  lemma {:induction false} FrameRestSame(t: Template, s: Inst, d: seq<Field>, fi: Inst, s': Inst)
    requires Points(t, s.cur) && s' == Inst(s.cur, s.slots[s.cur := Sub(fi)])
    requires Rest(t[s.cur + 1].sub, fi, FieldsOf(FieldAt(d, s.cur))) == Rest(t[s.cur + 1].sub, SubAt(s.slots, s.cur), FieldsOf(FieldAt(d, s.cur)))
    ensures Rest(t, s', d) == Rest(t, s, d)
  {
    RestAtFrame(t, s, d);
    RestAtFrame(t, s', d);
  }

  lemma InnerSetsSize(u: Template, fi: Inst, f: seq<Field>, num: nat, fi': Inst)
    requires ElementOk(u) && Reading(u, fi, f) && u[fi.cur].Barray? && !Sized(u, fi) && num == |BytesOf(FieldAt(f, fi.cur))|
    requires fi' == fi.(slots := fi.slots[fi.cur := Size(num)])
    ensures InstSetSize(u, fi, num, 0) == (true, fi') && Reading(u, fi', f) && Sized(u, fi') && Rest(u, fi', f) == Rest(u, fi, f)
  {
    ElementSetSize(u, fi, f, num, 0);
    ElementSized(u, fi, f, fi');
  }

  lemma SizeReachesFrame(t: Template, s: Inst, d: seq<Field>, fi: Inst, num: nat)
    requires Readable(t) && Boundary(t, s.cur) && s.cur < |t| - 2 && Before(t, s.slots, d, s.cur) && Points(t, s.cur)
    requires InstSetSize(t[s.cur + 1].sub, SubAt(s.slots, s.cur), num, 0) == (true, fi)
    ensures InstSetSize(t, s, num, 0) == (true, s.(slots := s.slots[s.cur := Sub(fi)]))
  {
    StartBoundary(t);
    SetSizeReaches(t, s, d, num, 0, s.slots[s.cur := Sub(fi)]);
  }

  lemma ItemTakesSize(t: Template, slots: map<int, Slot>, num: int, p: int, r: (bool, Loop))
    requires 0 <= p < |t| && t[p].Iter? && r == LoopSetSize(t, p + 1, ListAt(slots, p), num)
    ensures ItemSetSize(t, slots, num, p) == (r.0, slots[p := List(r.1)])
  {
  }

  /** The size of a byte string of a list element. */
  lemma ElementSetsSize(t: Template, s: Inst, d: seq<Field>, iters: seq<Counting>, p: int, it: Loop, es: seq<Field>, num: nat,
                        it': Loop, s': Inst)
    requires Readable(t) && State(t, s, d, iters) && p == s.cur && t[p].Iter? && Points(t, p + 1)
    requires it == ListAt(s.slots, p) && es == ElemsOf(FieldAt(d, p)) && it.cur < |es| && !ListSized(t, p + 1, it)
    requires num == |BytesOf(FieldAt(FieldsOf(es[it.cur]), SubAt(it.slots, it.cur).cur))|
    requires it' == LoopSetSize(t, p + 1, it, num).1 && s' == InstSetSize(t, s, num, 0).1
    ensures InstSetSize(t, s, num, 0).0 && State(t, s', d, iters) && s'.cur == p && Rest(t, s', d) == Rest(t, s, d)
    ensures ListAt(s'.slots, p) == it' && ListSized(t, p + 1, it') && it'.cur == it.cur
    ensures SubAt(it'.slots, it.cur).cur == SubAt(it.slots, it.cur).cur
    ensures ElementRest(t, p + 1, it', es) == ElementRest(t, p + 1, it, es) && Unread(t, p + 1, it', es) == Unread(t, p + 1, it, es)
  {
    ListHere(t, s, d, iters, p);
    ListSetSize(t, p + 1, it, es, num, it');
    StartBoundary(t);
    ItemTakesSize(t, s.slots, num, p, LoopSetSize(t, p + 1, it, num));
    SetSizeReaches(t, s, d, num, 0, s.slots[p := List(it')]);
    ListReplaced(t, s, d, iters, p, it, es, it', s');
  }
}
