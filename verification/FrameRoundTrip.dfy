/** A frame written and read back: the reader gets every number and string of the document,
    and goes round each list as often as it has elements. */
module FrameRoundTrip {
  import opened Sealed
  import opened FrameTemplate
  import opened FrameCursor
  import opened FrameTokens
  import opened FrameWalk
  import opened FrameSetup
  import opened FrameRequests
  import opened FrameEncode
  import opened FrameLoopEnd
  import opened FrameElement
  import opened FrameRead
  import opened FrameDecode
  import opened FrameLengths

  /** What is read of a row of tokens. */
  function DataSeen(ks: seq<Token>): seq<Datum> {
    if ks == [] then [] else (if ks[0].PadToken? then [] else [Seen(ks[0])]) + DataSeen(ks[1..])
  }

  lemma {:induction false} DataSeenConcat(a: seq<Token>, b: seq<Token>)
    ensures DataSeen(a + b) == DataSeen(a) + DataSeen(b)
  {
    if a == [] {
      assert a + b == b;
    } else {
      assert (a + b)[0] == a[0] && (a + b)[1..] == a[1..] + b;
      DataSeenConcat(a[1..], b);
    }
  }

  predicate Pads(t: Template, c: int, i: int) {
    0 <= c <= i < |t| && forall m :: c <= m < i ==> t[m].Padding?
  }

  /** From record c on, the next datum is the one at record i. */
  lemma {:induction false} PadsThen(t: Template, d: seq<Field>, c: int, i: int)
    requires Pads(t, c, i) && Simple(t, i) && !t[i].Padding?
    ensures NonPads(TokensFrom(t, d, c)) && NextToken(TokensFrom(t, d, c)) == TokenAt(t, d, i) && Lead(TokensFrom(t, d, c)) == i - c
    decreases i - c
  {
    SimpleTokens(t, d, c);
    if c < i {
      PadsThen(t, d, c + 1, i);
      PadFirst(TokenAt(t, d, c), TokensFrom(t, d, c + 1));
    }
  }

  lemma PadFirst(k: Token, ks: seq<Token>)
    requires k.PadToken? && NonPads(ks)
    ensures NonPads([k] + ks) && NextToken([k] + ks) == NextToken(ks) && Lead([k] + ks) == 1 + Lead(ks)
  {
    assert ([k] + ks)[1..] == ks;
  }

  lemma {:induction false} PadsAll(u: Template, f: seq<Field>, c: int)
    requires Flat(u) && Pads(u, c, |u| - 1)
    ensures PadsOnly(TokensFrom(u, f, c))
    decreases |u| - c
  {
    if c < |u| - 1 {
      SimpleTokens(u, f, c);
      PadsAll(u, f, c + 1);
    }
  }

  lemma {:induction false} LeadConcat(a: seq<Token>, b: seq<Token>)
    requires NonPads(a)
    ensures Lead(a + b) == Lead(a)
  {
    assert (a + b)[0] == a[0] && (a + b)[1..] == a[1..] + b;
    if a[0].PadToken? {
      LeadConcat(a[1..], b);
    }
  }

  lemma NoPadBefore(t: Template, c: int, i: int)
    requires Pads(t, c, i) && i > 0 && t[i - 1].Bits?
    ensures c == i
  {
  }

  /** The next datum of a list is the next of the frame. */
  lemma ListLeads(t: Template, s: Inst, d: seq<Field>, iters: seq<Counting>, p: int, it: Loop, es: seq<Field>, inner: seq<Token>)
    requires Readable(t) && State(t, s, d, iters) && p == s.cur && 0 <= p < |t| && t[p].Iter?
    requires it == ListAt(s.slots, p) && es == ElemsOf(FieldAt(d, p)) && inner == LoopRest(t, p + 1, it, es) && NonPads(inner)
    ensures NonPads(Rest(t, s, d)) && NextToken(Rest(t, s, d)) == NextToken(inner) && Lead(Rest(t, s, d)) == Lead(inner)
  {
    ListHere(t, s, d, iters, p);
    NonPadsConcat(inner, TokensFrom(t, d, Increment(t, p)));
    LeadConcat(inner, TokensFrom(t, d, Increment(t, p)));
  }

  // In an element.

  /** The reader of element k has got all data before record j of it. */
  ghost predicate InElement(t: Template, s: Inst, p: int, k: int, j: int) {
    && 0 <= p < |t| && t[p].Iter? && Points(t, p + 1) && s.cur == p && ListAt(s.slots, p).cur == k
    && var fi := SubAt(ListAt(s.slots, p).slots, k);
    && Pads(t[p + 2].sub, fi.cur, j) && SizeAt(fi.slots, fi.cur) == NO_VALUE && (j > 0 ==> fi != FreshInst())
  }

  /** The next datum of the element is in reach. */
  lemma ElementDue(t: Template, d: seq<Field>, rest: seq<Token>, s: Inst, iters: seq<Counting>, p: int, k: int, j: int,
                   u: Template, es: seq<Field>)
    requires Standing(t, d, rest, s, iters) && 0 <= p < |t| && t[p].Iter? && Points(t, p + 1) && u == t[p + 2].sub && s.cur == p
    requires es == ElemsOf(FieldAt(d, p)) && ListAt(s.slots, p).cur == k && 0 <= k < |es|
    requires var fi := SubAt(ListAt(s.slots, p).slots, k); Pads(u, fi.cur, j) && (u[fi.cur].Barray? ==> SizeAt(fi.slots, fi.cur) != NO_VALUE)
    requires Simple(u, j) && !u[j].Padding?
    ensures Due(t, d, s) && NonPads(rest) && NextToken(rest) == TokenAt(u, FieldsOf(es[k]), j)
    ensures Lead(rest) == j - SubAt(ListAt(s.slots, p).slots, k).cur
  {
    assert Asked(0, (s, iters));
    var it := ListAt(s.slots, p);
    ReadingHere(t, s, d, iters, p, it, es);
    ElementReach(t, p + 1, it, es, j, u);
    ListLeads(t, s, d, iters, p, it, es, LoopRest(t, p + 1, it, es));
    ReachSized(u, SubAt(it.slots, k), j);
    DueInList(t, d, s, p, it, es);
  }

  lemma ReachSized(u: Template, fi: Inst, j: int)
    requires Pads(u, fi.cur, j) && (u[fi.cur].Barray? ==> SizeAt(fi.slots, fi.cur) != NO_VALUE)
    ensures Sized(u, fi)
  {
  }

  lemma DueInList(t: Template, d: seq<Field>, s: Inst, p: int, it: Loop, es: seq<Field>)
    requires 0 <= p == s.cur < |t| && t[p].Iter? && it == ListAt(s.slots, p) && es == ElemsOf(FieldAt(d, p))
    requires 0 <= it.cur < |es| && NonPads(ElementRest(t, p + 1, it, es)) && ListSized(t, p + 1, it)
    ensures Due(t, d, s)
  {
  }

  lemma ElementReach(t: Template, i: int, it: Loop, es: seq<Field>, j: int, u: Template)
    requires RepeatsOk(t, i) && Points(t, i) && u == t[i + 1].sub && ListReading(t, i, it, es) && it.cur < |es|
    requires Pads(u, SubAt(it.slots, it.cur).cur, j) && Simple(u, j) && !u[j].Padding?
    ensures NonPads(ElementRest(t, i, it, es)) && NonPads(LoopRest(t, i, it, es))
    ensures NextToken(LoopRest(t, i, it, es)) == TokenAt(u, FieldsOf(es[it.cur]), j)
    ensures Lead(LoopRest(t, i, it, es)) == j - SubAt(it.slots, it.cur).cur
  {
    var fi, f := SubAt(it.slots, it.cur), FieldsOf(es[it.cur]);
    FlatRest(u, fi, f);
    PadsThen(u, f, fi.cur, j);
    ElementFirst(t, i, it, es);
    LeadConcat(ElementRest(t, i, it, es), ElemsTokens(t, i, es[it.cur + 1..]));
  }

  /** The size of the byte string that is next. */
  lemma ElementSize(t: Template, d: seq<Field>, rest: seq<Token>, s: Inst, iters: seq<Counting>, p: int, k: int, j: int,
                    u: Template, es: seq<Field>, num: nat, s': Inst)
    requires Standing(t, d, rest, s, iters) && InElement(t, s, p, k, j) && u == t[p + 2].sub
    requires es == ElemsOf(FieldAt(d, p)) && 0 <= k < |es| && 0 <= j < |u| && u[j].Barray?
    requires num == |BytesOf(FieldAt(FieldsOf(es[k]), j))| && s' == InstSetSize(t, s, num, 0).1
    ensures Standing(t, d, rest, s', iters) && s'.cur == p && ListAt(s'.slots, p).cur == k
    ensures var fi := SubAt(ListAt(s'.slots, p).slots, k); fi.cur == j && SizeAt(fi.slots, j) != NO_VALUE
  {
    assert Asked(0, (s, iters));
    var it := ListAt(s.slots, p);
    ReadingHere(t, s, d, iters, p, it, es);
    NoPadBefore(u, SubAt(it.slots, k).cur, j);
    ElementSetsSize(t, s, d, iters, p, it, es, num, LoopSetSize(t, p + 1, it, num).1, s');
  }

  /** A whole element has been read, paddings at its end apart. */
  lemma {:induction false} ElementOver(t: Template, d: seq<Field>, rest: seq<Token>, s: Inst, iters: seq<Counting>, p: int, k: int,
                    u: Template, es: seq<Field>)
    requires Standing(t, d, rest, s, iters) && InElement(t, s, p, k, |u| - 1) && u == t[p + 2].sub && |u| > 1
    requires es == ElemsOf(FieldAt(d, p)) && 0 <= k < |es|
    ensures Between(t, d, s, p, |es| - k - 1)
  {
    var it := ListAt(s.slots, p);
    ElementRead(t, d, rest, s, iters, p, it, es);
    ElementRests(t, p + 1, it, es, u, |es| - k - 1);
    BetweenOf(t, d, s, p, it, es, |es| - k - 1);
  }

  lemma {:induction false} ElementRead(t: Template, d: seq<Field>, rest: seq<Token>, s: Inst, iters: seq<Counting>, p: int, it: Loop,
                    es: seq<Field>)
    requires Standing(t, d, rest, s, iters) && 0 <= p < |t| && t[p].Iter? && s.cur == p
    requires it == ListAt(s.slots, p) && es == ElemsOf(FieldAt(d, p))
    ensures RepeatsOk(t, p + 1) && ListReading(t, p + 1, it, es) && Pending(t, p) == p
  {
    assert Asked(0, (s, iters));
    ReadingHere(t, s, d, iters, p, it, es);
  }

  lemma BetweenOf(t: Template, d: seq<Field>, s: Inst, p: int, it: Loop, es: seq<Field>, n: int)
    requires p == Pending(t, s.cur) >= 0 && it == ListAt(s.slots, p) && es == ElemsOf(FieldAt(d, p)) && Resting(t, p + 1, it, es, n)
    ensures Between(t, d, s, p, n)
  {
  }

  lemma ElementRests(t: Template, i: int, it: Loop, es: seq<Field>, u: Template, n: int)
    requires RepeatsOk(t, i) && Points(t, i) && u == t[i + 1].sub && ListReading(t, i, it, es) && it.cur < |es| && n == |es| - it.cur - 1
    requires SubAt(it.slots, it.cur) != FreshInst() && Pads(u, SubAt(it.slots, it.cur).cur, |u| - 1)
    ensures Resting(t, i, it, es, n)
  {
    var fi, f := SubAt(it.slots, it.cur), FieldsOf(es[it.cur]);
    FlatRest(u, fi, f);
    PadsAll(u, f, fi.cur);
  }

  // A list of numbers.

  lemma OneDatum(k: Token)
    requires !k.PadToken?
    ensures NonPads([k]) && NextToken([k]) == k && Lead([k]) == 0
  {
  }

  lemma NumberFirst(t: Template, i: int, it: Loop, es: seq<Field>)
    requires 0 <= it.cur < |es| && NonPads(ElementRest(t, i, it, es))
    ensures NonPads(LoopRest(t, i, it, es)) && NextToken(LoopRest(t, i, it, es)) == NextToken(ElementRest(t, i, it, es))
    ensures Lead(LoopRest(t, i, it, es)) == Lead(ElementRest(t, i, it, es))
  {
    ElementFirst(t, i, it, es);
    LeadConcat(ElementRest(t, i, it, es), ElemsTokens(t, i, es[it.cur + 1..]));
  }

  lemma NumberDue(t: Template, d: seq<Field>, rest: seq<Token>, s: Inst, iters: seq<Counting>, p: int, k: int, es: seq<Field>)
    requires Standing(t, d, rest, s, iters) && AtElement(t, s, p, k) && p + 1 < |t| && t[p + 1].Bits?
    requires es == ElemsOf(FieldAt(d, p)) && 0 <= k < |es|
    ensures Due(t, d, s) && NonPads(rest) && NextToken(rest) == BitsToken(t[p + 1].width, NumOf(es[k])) && Lead(rest) == 0
  {
    assert Asked(0, (s, iters));
    var it := ListAt(s.slots, p);
    OneDatum(BitsToken(t[p + 1].width, NumOf(es[k])));
    assert ElementRest(t, p + 1, it, es) == [BitsToken(t[p + 1].width, NumOf(es[k]))];
    NumberFirst(t, p + 1, it, es);
    ListLeads(t, s, d, iters, p, it, es, LoopRest(t, p + 1, it, es));
    DueInList(t, d, s, p, it, es);
  }

  lemma NumberOver(t: Template, d: seq<Field>, rest: seq<Token>, s: Inst, iters: seq<Counting>, p: int, k: int, es: seq<Field>)
    requires Standing(t, d, rest, s, iters) && 0 <= p && p + 1 < |t| && t[p].Iter? && t[p + 1].Bits? && s.cur == p
    requires ListAt(s.slots, p).cur == k + 1 && es == ElemsOf(FieldAt(d, p)) && 0 <= k < |es|
    ensures Between(t, d, s, p, |es| - k - 1)
  {
    assert Asked(0, (s, iters));
    ReadingHere(t, s, d, iters, p, ListAt(s.slots, p), es);
    BetweenOf(t, d, s, p, ListAt(s.slots, p), es, |es| - k - 1);
  }

  // In the frame.

  /** All data before record i has been got, and a list or an inner frame there has not been begun. */
  ghost predicate AtRecord(t: Template, s: Inst, i: int) {
    var s0 := Settled(t, s);
    Pads(t, s0.cur, i) && Fresh(t, s0)
  }

  lemma RecordDue(t: Template, d: seq<Field>, rest: seq<Token>, s: Inst, iters: seq<Counting>, i: int, s0: Inst)
    requires Standing(t, d, rest, s, iters) && s0 == Settled(t, s) && Pads(t, s0.cur, i) && Simple(t, i) && !t[i].Padding?
    requires t[i].Barray? ==> s0.cur == i && SizeAt(s0.slots, i) != NO_VALUE
    ensures Due(t, d, s) && NonPads(rest) && NextToken(rest) == TokenAt(t, d, i) && Lead(rest) == i - s0.cur
  {
    assert Asked(0, (s, iters));
    SettledState(t, s, d, iters, s0);
    NotPending(t, s0.cur, i);
    RestNotBegun(t, s0, d, iters);
    PadsThen(t, d, s0.cur, i);
  }

  lemma RecordTaken(t: Template, d: seq<Field>, rest: seq<Token>, s: Inst, s': Inst, iters: seq<Counting>, i: int)
    requires Standing(t, d, rest, s', iters) && Pads(t, s.cur, i) && Simple(t, i) && !t[i].Padding? && Moves(t, s, s', 1 + i - s.cur)
    ensures AtRecord(t, s', i + 1)
  {
    assert Asked(0, (s', iters));
    FreshSettled(t, s');
  }

  lemma {:induction false} NotPending(t: Template, c: int, i: int)
    requires Pads(t, c, i) && !t[i].Iter? && !t[i].Padding?
    ensures Pending(t, c) == -1 && !t[c].Iter?
    decreases i - c
  {
    if c < i {
      NotPending(t, c + 1, i);
    }
  }

  lemma {:induction false} ListPending(t: Template, c: int, i: int)
    requires Pads(t, c, i) && t[i].Iter?
    ensures Pending(t, c) == i && (t[c].Iter? ==> c == i)
    decreases i - c
  {
    if c < i {
      ListPending(t, c + 1, i);
    }
  }

  lemma RecordSize(t: Template, d: seq<Field>, rest: seq<Token>, s: Inst, iters: seq<Counting>, i: int, num: nat, s': Inst)
    requires Standing(t, d, rest, s, iters) && AtRecord(t, s, i) && i < |t| - 1 && t[i].Barray?
    requires num == |BytesOf(FieldAt(d, i))| && s' == InstSetSize(t, s, num, 0).1
    ensures Standing(t, d, rest, s', iters) && s'.cur == i && SizeAt(s'.slots, i) != NO_VALUE && Settled(t, s') == s'
  {
    assert Asked(0, (s, iters));
    assert ReadableRecord(t, i);
    SettledState(t, s, d, iters, Settled(t, s));
    NoPadBefore(t, Settled(t, s).cur, i);
    TopSetSize(t, s, d, iters, num, s');
  }

  /** A list comes next: all its elements are unread. */
  lemma RecordList(t: Template, d: seq<Field>, rest: seq<Token>, s: Inst, iters: seq<Counting>, i: int)
    requires Standing(t, d, rest, s, iters) && AtRecord(t, s, i) && t[i].Iter?
    ensures Between(t, d, s, i, |ElemsOf(FieldAt(d, i))|)
  {
    assert Asked(0, (s, iters));
    var s0 := Settled(t, s);
    SettledState(t, s, d, iters, s0);
    ListPending(t, s0.cur, i);
    assert ReadableRecord(t, i);
    if s0 != s {
      CountedBack(t, i, s0.cur - 1);
    }
  }

  /** Past a list nothing is known of what comes. */
  lemma RecordAfterList(t: Template, d: seq<Field>, rest: seq<Token>, s: Inst, iters: seq<Counting>, p: int)
    requires Standing(t, d, rest, s, iters) && 0 <= p < |t| - 1 && t[p].Iter? && s.cur == Increment(t, p) && FrameFresh(t, s)
    ensures AtRecord(t, s, s.cur) && p < s.cur < |t|
  {
    assert Asked(0, (s, iters));
    FreshSettled(t, s);
    BehindList(t, p);
    assert RecordOk(t, p) && ReadableRecord(t, p);
    DecrementUndoesIncrement(t, p);
    if s.cur < |t| - 1 {
      assert ReadableRecord(t, s.cur);
    }
    if t[p + 1].Pointer? {
      assert RecordOk(t, p + 1);
      assert Increment(t, p + 1) == p + 3;
    } else {
      assert Increment(t, p + 1) == p + 2;
    }
  }

  // In an inner frame that is no list element.

  /** All data before record j of the inner frame at record i has been got. */
  ghost predicate InFrame(t: Template, s: Inst, i: int, j: int) {
    && Points(t, i)
    && if j < |t[i + 1].sub| - 1 then Settled(t, s).cur == i && AtField(t[i + 1].sub, SubAt(Settled(t, s).slots, i), j)
       else AtRecord(t, s, i + 2)
  }

  predicate AtField(u: Template, fi: Inst, j: int) {
    Pads(u, fi.cur, j) && SizeAt(fi.slots, fi.cur) == NO_VALUE
  }

  lemma FrameEntered(t: Template, d: seq<Field>, rest: seq<Token>, s: Inst, iters: seq<Counting>, i: int)
    requires Standing(t, d, rest, s, iters) && AtRecord(t, s, i) && Boundary(t, i) && t[i].Pointer?
    ensures InFrame(t, s, i, 0) && FrameOk(t, i)
  {
    assert Asked(0, (s, iters));
    FrameHere(t, i);
    assert Settled(t, s).cur == i;
  }

  /** The next datum of the inner frame is in reach. */
  lemma FieldDue(t: Template, d: seq<Field>, rest: seq<Token>, s: Inst, iters: seq<Counting>, i: int, j: int, u: Template, s0: Inst, fi: Inst)
    requires Standing(t, d, rest, s, iters) && Points(t, i) && u == t[i + 1].sub && s0 == Settled(t, s) && s0.cur == i && fi == SubAt(s0.slots, i)
    requires Pads(u, fi.cur, j) && Simple(u, j) && !u[j].Padding? && j < |u| - 1 && (u[fi.cur].Barray? ==> SizeAt(fi.slots, fi.cur) != NO_VALUE)
    ensures Due(t, d, s) && NonPads(rest) && NextToken(rest) == TokenAt(u, FieldsOf(FieldAt(d, i)), j) && Lead(rest) == j - fi.cur
  {
    assert Asked(0, (s, iters));
    SettledState(t, s, d, iters, s0);
    FrameHere(t, i);
    var f := FieldsOf(FieldAt(d, i));
    FieldReach(u, fi, f, j);
    FieldLeads(t, s0, d, i, u, fi, f, rest);
    DueInFrame(t, d, s, s0, i, u, fi, f);
  }

  lemma FieldReach(u: Template, fi: Inst, f: seq<Field>, j: int)
    requires Flat(u) && Pads(u, fi.cur, j) && Simple(u, j) && !u[j].Padding? && j < |u| - 1
    requires u[fi.cur].Barray? ==> SizeAt(fi.slots, fi.cur) != NO_VALUE
    ensures NonPads(Rest(u, fi, f)) && NextToken(Rest(u, fi, f)) == TokenAt(u, f, j) && Lead(Rest(u, fi, f)) == j - fi.cur
    ensures FrameDue(u, fi, f)
  {
    FlatRest(u, fi, f);
    PadsThen(u, f, fi.cur, j);
    ReachSized(u, fi, j);
  }

  lemma FieldLeads(t: Template, s: Inst, d: seq<Field>, i: int, u: Template, fi: Inst, f: seq<Field>, rest: seq<Token>)
    requires Points(t, i) && u == t[i + 1].sub && s.cur == i && fi == SubAt(s.slots, i) && f == FieldsOf(FieldAt(d, i))
    requires NonPads(Rest(u, fi, f)) && rest == Rest(t, s, d)
    ensures NonPads(rest) && NextToken(rest) == NextToken(Rest(u, fi, f)) && Lead(rest) == Lead(Rest(u, fi, f))
  {
    RestAtFrame(t, s, d);
    NonPadsConcat(Rest(u, fi, f), TokensFrom(t, d, i + 2));
    LeadConcat(Rest(u, fi, f), TokensFrom(t, d, i + 2));
  }

  lemma DueInFrame(t: Template, d: seq<Field>, s: Inst, s0: Inst, i: int, u: Template, fi: Inst, f: seq<Field>)
    requires s0 == Settled(t, s) && s0.cur == i && Points(t, i) && u == t[i + 1].sub && fi == SubAt(s0.slots, i)
    requires f == FieldsOf(FieldAt(d, i)) && FrameDue(u, fi, f)
    ensures Due(t, d, s)
  {
  }

  /** The size of the byte string that is next. */
  lemma FieldSize(t: Template, d: seq<Field>, rest: seq<Token>, s: Inst, iters: seq<Counting>, i: int, j: int, u: Template, num: nat, s': Inst)
    requires Standing(t, d, rest, s, iters) && InFrame(t, s, i, j) && FrameOk(t, i) && u == t[i + 1].sub && 0 <= j < |u| - 1 && u[j].Barray?
    requires num == |BytesOf(FieldAt(FieldsOf(FieldAt(d, i)), j))| && s' == InstSetSize(t, s, num, 0).1
    ensures Standing(t, d, rest, s', iters) && s'.cur == i && Settled(t, s') == s'
    ensures SubAt(s'.slots, i).cur == j && SizeAt(SubAt(s'.slots, i).slots, j) != NO_VALUE
  {
    assert Asked(0, (s, iters));
    FieldHere(t, d, s, iters, i, j, u, Settled(t, s));
    FrameSetsSize(t, s, d, iters, u, SubAt(s.slots, i), num, s');
    FieldSized(t, s, i, j, u, num, s');
  }

  /** A byte string that is next is not the first field, so its frame has been begun. */
  lemma FieldHere(t: Template, d: seq<Field>, s: Inst, iters: seq<Counting>, i: int, j: int, u: Template, s0: Inst)
    requires Readable(t) && State(t, s, d, iters) && s0 == Settled(t, s)
    requires InFrame(t, s, i, j) && FrameOk(t, i) && u == t[i + 1].sub && 0 <= j < |u| - 1 && u[j].Barray?
    ensures s.cur == i && SubAt(s.slots, i).cur == j && SizeAt(SubAt(s.slots, i).slots, j) == NO_VALUE
  {
    SettledState(t, s, d, iters, s0);
    NoPadBefore(u, SubAt(s0.slots, i).cur, j);
  }

  lemma FieldSized(t: Template, s: Inst, i: int, j: int, u: Template, num: nat, s': Inst)
    requires Points(t, i) && u == t[i + 1].sub && s.cur == i && SubAt(s.slots, i).cur == j < |u| - 1
    requires var fi := SubAt(s.slots, i); s' == Inst(i, s.slots[i := Sub(fi.(slots := fi.slots[j := Size(num)]))])
    ensures Settled(t, s') == s' && SubAt(s'.slots, i).cur == j && SizeAt(SubAt(s'.slots, i).slots, j) == num
  {
  }

  lemma FieldGot(t: Template, d: seq<Field>, rest: seq<Token>, s: Inst, s': Inst, iters: seq<Counting>, i: int, j: int, u: Template)
    requires Standing(t, d, rest, s', iters) && FrameOk(t, i) && u == t[i + 1].sub && s.cur == i && 0 <= j < |u| - 1
    requires Boundary(t, i) && Moves(t, s, s', 1 + j - SubAt(s.slots, i).cur)
    ensures InFrame(t, s', i, j + 1)
  {
    FieldMoved(t, s, s', i, j, u);
    if j + 1 < |u| - 1 {
      FieldInside(t, s', i, j + 1, u);
    } else {
      assert Asked(0, (s', iters));
      FieldsOver(t, d, s', iters, i, u);
    }
  }

  lemma FieldMoved(t: Template, s: Inst, s': Inst, i: int, j: int, u: Template)
    requires Points(t, i) && u == t[i + 1].sub && s.cur == i && Moves(t, s, s', 1 + j - SubAt(s.slots, i).cur) && 0 <= j < |u| - 1
    ensures s'.cur == i && SubAt(s'.slots, i).cur == j + 1 && AtField(u, SubAt(s'.slots, i), j + 1)
  {
  }

  lemma FieldInside(t: Template, s: Inst, i: int, j: int, u: Template)
    requires Points(t, i) && u == t[i + 1].sub && s.cur == i && j < |u| - 1
    requires SubAt(s.slots, i).cur == j && AtField(u, SubAt(s.slots, i), j)
    ensures InFrame(t, s, i, j)
  {
  }

  /** Past its last field the inner frame is left. */
  lemma FieldsOver(t: Template, d: seq<Field>, s: Inst, iters: seq<Counting>, i: int, u: Template)
    requires Readable(t) && State(t, s, d, iters) && FrameOk(t, i) && Boundary(t, i) && u == t[i + 1].sub
    requires s.cur == i && SubAt(s.slots, i).cur == |u| - 1
    ensures InFrame(t, s, i, |u| - 1)
  {
    FrameHere(t, i);
    SettledState(t, s, d, iters, Settled(t, s));
  }

  lemma FieldPassed(t: Template, s: Inst, i: int, j: int, u: Template)
    requires InFrame(t, s, i, j) && FrameOk(t, i) && u == t[i + 1].sub && 0 <= j < |u| - 1 && u[j].Padding?
    ensures InFrame(t, s, i, j + 1)
  {
  }

  // The reader of a whole frame.  It knows the template, the bytes, and that the length of a
  // byte string is the number `back` data before it; the document is there for the proof only.

  /** All data of a flat frame before record j are got. */
  ghost predicate GotTo(u: Template, f: seq<Field>, j: int, got: seq<Datum>) {
    forall n: int :: Asked(n, got) ==> got + DataSeen(TokensFrom(u, f, j)) == DataSeen(TokensFrom(u, f, 0))
  }

  lemma {:induction false} GotNone(u: Template, f: seq<Field>)
    ensures GotTo(u, f, 0, [])
  {
  }

  lemma {:induction false} GotOne(u: Template, f: seq<Field>, j: int, got: seq<Datum>, x: Datum)
    requires GotTo(u, f, j, got) && Simple(u, j) && !u[j].Padding? && x == Seen(TokenAt(u, f, j))
    ensures GotTo(u, f, j + 1, got + [x])
  {
    assert Asked(0, got);
    SimpleTokens(u, f, j);
    SeenFirst(TokenAt(u, f, j), TokensFrom(u, f, j + 1));
    SeenJoin(got, [x], DataSeen(TokensFrom(u, f, j + 1)), DataSeen(TokensFrom(u, f, j)), DataSeen(TokensFrom(u, f, 0)));
  }

  lemma {:induction false} GotPad(u: Template, f: seq<Field>, j: int, got: seq<Datum>)
    requires GotTo(u, f, j, got) && Simple(u, j) && u[j].Padding?
    ensures GotTo(u, f, j + 1, got)
  {
    assert Asked(0, got);
    SimpleTokens(u, f, j);
    SeenFirst(TokenAt(u, f, j), TokensFrom(u, f, j + 1));
  }

  lemma {:induction false} GotAll(u: Template, f: seq<Field>, j: int, got: seq<Datum>)
    requires Flat(u) && j == |u| - 1 && GotTo(u, f, j, got)
    ensures got == DataSeen(TokensFrom(u, f, 0))
  {
    assert Asked(0, got);
    FlatRest(u, Inst(j, map[]), f);
  }

  lemma SeenJoin(a: seq<Datum>, b: seq<Datum>, c: seq<Datum>, rest: seq<Datum>, all: seq<Datum>)
    requires rest == b + c && a + rest == all
    ensures a + b + c == all
  {
  }

  lemma SeenFirst(k: Token, ks: seq<Token>)
    ensures DataSeen([k] + ks) == (if k.PadToken? then [] else [Seen(k)]) + DataSeen(ks)
  {
    assert ([k] + ks)[1..] == ks;
  }

  /** The datum at record j of an element. */
  method ReadField(r: FrameReader, ghost d: seq<Field>, ghost p: int, ghost k: nat, j: nat, u: Template, ghost es: seq<Field>,
                   ghost rest: seq<Token>, size: int)
    returns (x: Datum, ghost left: seq<Token>)
    requires r.Reads(d, rest) && InElement(r.t, r.fi, p, k, j) && u == r.t[p + 2].sub && Simple(u, j) && !u[j].Padding? && j < |u| - 1
    requires es == ElemsOf(FieldAt(d, p)) && k < |es| && (u[j].Barray? ==> size == |BytesOf(FieldAt(FieldsOf(es[k]), j))|)
    modifies r
    ensures r.Reads(d, left) && InElement(r.t, r.fi, p, k, j + 1) && x == Seen(TokenAt(u, FieldsOf(es[k]), j))
  {
    ghost var s := r.fi;
    if u[j].Barray? {
      var _ := r.SetSize(size);
      ElementSize(r.t, d, rest, s, r.iters, p, k, j, u, es, size, r.fi);
    }
    ElementDue(r.t, d, rest, r.fi, r.iters, p, k, j, u, es);
    ghost var s1 := r.fi;
    var _, y := r.GetToken(d, rest);
    x, left := y, AfterNext(rest);
    FieldTaken(r.t, s1, r.fi, p, k, j, u, Lead(rest));
  }

  lemma FieldTaken(t: Template, s: Inst, s': Inst, p: int, k: int, j: int, u: Template, n: int)
    requires 0 <= p < |t| && t[p].Iter? && Points(t, p + 1) && u == t[p + 2].sub && s.cur == p && ListAt(s.slots, p).cur == k
    requires Moves(t, s, s', 1 + n) && 0 <= j < |u| - 1
    requires var c := SubAt(ListAt(s.slots, p).slots, k).cur; 0 <= c && n == j - c
    ensures InElement(t, s', p, k, j + 1)
  {
  }

  method ReadElement(r: FrameReader, back: nat, ghost d: seq<Field>, p: int, ghost k: nat, ghost rest: seq<Token>)
    returns (got: seq<Datum>, ghost left: seq<Token>)
    requires r.Reads(d, rest) && AtElement(r.t, r.fi, p, k) && Points(r.t, p + 1) && ElementOk(r.t[p + 2].sub)
    requires k < |ElemsOf(FieldAt(d, p))|
    requires Told(r.t[p + 2].sub, back, FieldsOf(ElemsOf(FieldAt(d, p))[k]))
    modifies r
    ensures r.Reads(d, left) && Between(r.t, d, r.fi, p, |ElemsOf(FieldAt(d, p))| - k - 1)
    ensures got == DataSeen(ElemTokens(r.t, p + 1, ElemsOf(FieldAt(d, p))[k]))
  {
    var u := r.t[p + 2].sub;
    ghost var es := ElemsOf(FieldAt(d, p));
    ghost var f := FieldsOf(es[k]);
    got, left := [], rest;
    GotNone(u, f);
    var j := 0;
    while j < |u| - 1
      invariant 0 <= j <= |u| - 1 && InElement(r.t, r.fi, p, k, j) && r.Reads(d, left)
      invariant GotTo(u, f, j, got) && Recent(u, f, j, got)
    {
      FlatSimple(u, j);
      if u[j].Padding? {
        PadPassed(r.t, r.fi, p, k, j, u);
        RecentNone(u, f, j + 1, got);
        GotPad(u, f, j, got);
      } else {
        var size := LastSize(u, back, f, j, got);
        var x;
        x, left := ReadField(r, d, p, k, j, u, es, left, size);
        RecentStep(u, f, j, got, x);
        GotOne(u, f, j, got, x);
        got := got + [x];
      }
      j := j + 1;
    }
    ElementOver(r.t, d, left, r.fi, r.iters, p, k, u, es);
    GotAll(u, f, j, got);
  }

  /** A byte string is as long as the number `back` data ago said. */
  method LastSize(t: Template, back: nat, ghost d: seq<Field>, i: int, got: seq<Datum>) returns (size: int)
    requires Told(t, back, d) && Recent(t, d, i, got) && Boundary(t, i)
    ensures t[i].Barray? ==> size == |BytesOf(FieldAt(d, i))|
  {
    size := NO_VALUE;
    if t[i].Barray? {
      LengthGot(t, back, d, i, got);
      size := got[|got| - back].num;
    }
  }

  lemma PadPassed(t: Template, s: Inst, p: int, k: int, j: int, u: Template)
    requires InElement(t, s, p, k, j) && u == t[p + 2].sub && ElementOk(u) && j < |u| - 1 && u[j].Padding?
    ensures InElement(t, s, p, k, j + 1)
  {
  }

  /** One element, number or frame. */
  method ReadOne(r: FrameReader, back: nat, ghost d: seq<Field>, p: int, ghost k: nat, ghost rest: seq<Token>)
    returns (seen: seq<Datum>, ghost left: seq<Token>)
    requires r.Reads(d, rest) && AtElement(r.t, r.fi, p, k) && RepeatsOk(r.t, p + 1) && k < |ElemsOf(FieldAt(d, p))|
    requires Points(r.t, p + 1) ==> Told(r.t[p + 2].sub, back, FieldsOf(ElemsOf(FieldAt(d, p))[k]))
    modifies r
    ensures r.Reads(d, left) && Between(r.t, d, r.fi, p, |ElemsOf(FieldAt(d, p))| - k - 1)
    ensures seen == DataSeen(ElemTokens(r.t, p + 1, ElemsOf(FieldAt(d, p))[k]))
  {
    if r.t[p + 1].Bits? {
      ghost var es := ElemsOf(FieldAt(d, p));
      NumberDue(r.t, d, rest, r.fi, r.iters, p, k, es);
      var _, x := r.GetToken(d, rest);
      left := AfterNext(rest);
      NumberOver(r.t, d, left, r.fi, r.iters, p, k, es);
      seen := [x];
    } else {
      seen, left := ReadElement(r, back, d, p, k, rest);
    }
  }

  /** An element, and the end test behind it. */
  method ReadAnother(r: FrameReader, back: nat, ghost d: seq<Field>, p: int, ghost k: nat) returns (seen: seq<Datum>, end: bool)
    requires Told(r.t, back, d) && Boundary(r.t, p) && 0 <= p && r.t[p].Iter? && RepeatsOk(r.t, p + 1) && k < |ElemsOf(FieldAt(d, p))|
    requires AtElement(r.t, r.fi, p, k) && r.Reads(d, FromElement(r.t, d, p, |ElemsOf(FieldAt(d, p))| - k))
    modifies r
    ensures end == (k + 1 == |ElemsOf(FieldAt(d, p))|) && seen == DataSeen(ElemTokens(r.t, p + 1, ElemsOf(FieldAt(d, p))[k]))
    ensures !end ==> AtElement(r.t, r.fi, p, k + 1) && r.Reads(d, FromElement(r.t, d, p, |ElemsOf(FieldAt(d, p))| - k - 1))
    ensures end ==> r.fi.cur == Increment(r.t, p) && FrameFresh(r.t, r.fi) && r.Reads(d, TokensFrom(r.t, d, Increment(r.t, p)))
  {
    ghost var left;
    ElementTold(r.t, back, d, p, k);
    seen, left := ReadOne(r, back, d, p, k, FromElement(r.t, d, p, |ElemsOf(FieldAt(d, p))| - k));
    end := r.IsIterLoopEnd(d, left, p, |ElemsOf(FieldAt(d, p))| - k - 1);
  }

  method ReadList(r: FrameReader, back: nat, ghost d: seq<Field>, p: int, ghost rest: seq<Token>) returns (got: seq<Datum>, count: nat)
    requires Told(r.t, back, d) && Boundary(r.t, p)
    requires r.Reads(d, rest) && Between(r.t, d, r.fi, p, |ElemsOf(FieldAt(d, p))|) && RepeatsOk(r.t, p + 1) && 0 <= p && r.t[p].Iter?
    modifies r
    ensures r.Reads(d, TokensFrom(r.t, d, Increment(r.t, p))) && r.fi.cur == Increment(r.t, p) && FrameFresh(r.t, r.fi)
    ensures got == DataSeen(ElemsTokens(r.t, p + 1, ElemsOf(FieldAt(d, p)))) && count == |ElemsOf(FieldAt(d, p))|
  {
    ghost var es := ElemsOf(FieldAt(d, p));
    got, count := [], 0;
    var end := r.IsIterLoopEnd(d, rest, p, |es|);
    ElementsNone(r.t, p + 1, es);
    while !end
      invariant 0 <= count <= |es| && end == (count == |es|)
      invariant !end ==> AtElement(r.t, r.fi, p, count) && r.Reads(d, FromElement(r.t, d, p, |es| - count))
      invariant end ==> r.fi.cur == Increment(r.t, p) && FrameFresh(r.t, r.fi) && r.Reads(d, TokensFrom(r.t, d, Increment(r.t, p)))
      invariant ElementsGot(r.t, p + 1, es, count, got)
      decreases |es| - count
    {
      var seen;
      seen, end := ReadAnother(r, back, d, p, count);
      ElementsOne(r.t, p + 1, es, count, got, seen);
      got, count := got + seen, count + 1;
    }
    ElementsAll(r.t, p + 1, es, count, got);
  }

  /** The data of the first k elements are got. */
  ghost predicate ElementsGot(t: Template, i: int, es: seq<Field>, k: int, got: seq<Datum>) {
    0 <= k <= |es| &&
    forall n: int :: Asked(n, got) ==> got + DataSeen(ElemsTokens(t, i, es[k..])) == DataSeen(ElemsTokens(t, i, es))
  }

  lemma {:induction false} ElementsNone(t: Template, i: int, es: seq<Field>)
    ensures ElementsGot(t, i, es, 0, [])
  {
    assert es[0..] == es;
  }

  lemma {:induction false} ElementsOne(t: Template, i: int, es: seq<Field>, k: int, got: seq<Datum>, seen: seq<Datum>)
    requires ElementsGot(t, i, es, k, got) && k < |es| && seen == DataSeen(ElemTokens(t, i, es[k]))
    ensures ElementsGot(t, i, es, k + 1, got + seen)
  {
    assert Asked(0, got);
    assert es[k..][0] == es[k] && es[k..][1..] == es[k + 1..];
    DataSeenConcat(ElemTokens(t, i, es[k]), ElemsTokens(t, i, es[k + 1..]));
    SeenJoin(got, seen, DataSeen(ElemsTokens(t, i, es[k + 1..])), DataSeen(ElemsTokens(t, i, es[k..])), DataSeen(ElemsTokens(t, i, es)));
  }

  lemma {:induction false} ElementsAll(t: Template, i: int, es: seq<Field>, k: int, got: seq<Datum>)
    requires ElementsGot(t, i, es, k, got) && k == |es|
    ensures got == DataSeen(ElemsTokens(t, i, es))
  {
    assert Asked(0, got);
    assert es[k..] == [];
  }

  // The whole frame.

  /** The lengths of the lists, in order. */
  function Lengths(t: Template, d: seq<Field>, i: int): seq<nat>
    decreases |t| - i
  {
    if !(0 <= i < |t|) || !(i < Increment(t, i)) then []
    else (if t[i].Iter? then [|ElemsOf(FieldAt(d, i))|] else []) + Lengths(t, d, Increment(t, i))
  }

  /** A number, a counter or a byte string of the frame itself. */
  method ReadRecord(r: FrameReader, ghost d: seq<Field>, i: int, ghost rest: seq<Token>, size: int)
    returns (x: Datum, ghost left: seq<Token>)
    requires r.Reads(d, rest) && AtRecord(r.t, r.fi, i) && Simple(r.t, i) && !r.t[i].Padding? && i < |r.t| - 1
    requires r.t[i].Barray? ==> size == |BytesOf(FieldAt(d, i))|
    modifies r
    ensures r.Reads(d, left) && AtRecord(r.t, r.fi, i + 1) && x == Seen(TokenAt(r.t, d, i))
  {
    ghost var s := r.fi;
    if r.t[i].Barray? {
      var _ := r.SetSize(size);
      RecordSize(r.t, d, rest, s, r.iters, i, size, r.fi);
    }
    ghost var s0 := Settled(r.t, r.fi);
    RecordDue(r.t, d, rest, r.fi, r.iters, i, s0);
    var _, y := r.GetToken(d, rest);
    x, left := y, AfterNext(rest);
    RecordTaken(r.t, d, left, s0, r.fi, r.iters, i);
  }

  /** The datum at record j of the inner frame at record i. */
  method ReadInnerField(r: FrameReader, ghost d: seq<Field>, ghost i: int, j: nat, u: Template, ghost rest: seq<Token>, size: int)
    returns (x: Datum, ghost left: seq<Token>)
    requires r.Reads(d, rest) && Boundary(r.t, i) && FrameOk(r.t, i) && u == r.t[i + 1].sub && InFrame(r.t, r.fi, i, j)
    requires Simple(u, j) && !u[j].Padding? && j < |u| - 1 && (u[j].Barray? ==> size == |BytesOf(FieldAt(FieldsOf(FieldAt(d, i)), j))|)
    modifies r
    ensures r.Reads(d, left) && InFrame(r.t, r.fi, i, j + 1) && x == Seen(TokenAt(u, FieldsOf(FieldAt(d, i)), j))
  {
    ghost var s := r.fi;
    if u[j].Barray? {
      var _ := r.SetSize(size);
      FieldSize(r.t, d, rest, s, r.iters, i, j, u, size, r.fi);
    }
    ghost var s0 := Settled(r.t, r.fi);
    FieldDue(r.t, d, rest, r.fi, r.iters, i, j, u, s0, SubAt(s0.slots, i));
    var _, y := r.GetToken(d, rest);
    x, left := y, AfterNext(rest);
    FieldGot(r.t, d, left, s0, r.fi, r.iters, i, j, u);
  }

  /** All data of the inner frame at record i before record j are got. */
  ghost predicate FieldsGot(t: Template, s: Inst, i: int, u: Template, f: seq<Field>, j: int, got: seq<Datum>) {
    0 <= j < |u| && forall n: int :: Asked(n, (s, got)) ==> InFrame(t, s, i, j) && GotTo(u, f, j, got) && Recent(u, f, j, got)
  }

  /** Record j of the inner frame at record i: a datum, or a padding. */
  method ReadNext(r: FrameReader, back: nat, ghost d: seq<Field>, ghost i: int, u: Template, ghost f: seq<Field>, j: nat,
                  before: seq<Datum>, ghost rest: seq<Token>)
    returns (got: seq<Datum>, ghost left: seq<Token>)
    requires r.Reads(d, rest) && Boundary(r.t, i) && FrameOk(r.t, i) && u == r.t[i + 1].sub && j < |u| - 1
    requires Told(u, back, f) && f == FieldsOf(FieldAt(d, i)) && FieldsGot(r.t, r.fi, i, u, f, j, before)
    modifies r
    ensures r.Reads(d, left) && FieldsGot(r.t, r.fi, i, u, f, j + 1, got)
  {
    assert Asked(0, (r.fi, before));
    FlatSimple(u, j);
    got, left := before, rest;
    if u[j].Padding? {
      FieldPassed(r.t, r.fi, i, j, u);
      RecentNone(u, f, j + 1, got);
      GotPad(u, f, j, got);
    } else {
      var size := LastSize(u, back, f, j, got);
      var x;
      x, left := ReadInnerField(r, d, i, j, u, left, size);
      RecentStep(u, f, j, got, x);
      GotOne(u, f, j, got, x);
      got := got + [x];
    }
  }

  /** The data of the inner frame at record i. */
  method ReadFields(r: FrameReader, back: nat, ghost d: seq<Field>, ghost i: int, u: Template, ghost f: seq<Field>, ghost rest: seq<Token>)
    returns (got: seq<Datum>, ghost left: seq<Token>)
    requires r.Reads(d, rest) && Boundary(r.t, i) && FrameOk(r.t, i) && u == r.t[i + 1].sub && InFrame(r.t, r.fi, i, 0)
    requires Told(u, back, f) && f == FieldsOf(FieldAt(d, i))
    modifies r
    ensures r.Reads(d, left) && FieldsGot(r.t, r.fi, i, u, f, |u| - 1, got)
  {
    got, left := [], rest;
    GotNone(u, f);
    RecentNone(u, f, 0, got);
    var j := 0;
    while j < |u| - 1
      invariant 0 <= j <= |u| - 1 && r.Reads(d, left) && FieldsGot(r.t, r.fi, i, u, f, j, got)
    {
      got, left := ReadNext(r, back, d, i, u, f, j, got, left);
      j := j + 1;
    }
  }

  /** The inner frame at record i. */
  method ReadInner(r: FrameReader, back: nat, ghost d: seq<Field>, i: int, ghost rest: seq<Token>)
    returns (got: seq<Datum>, ghost left: seq<Token>)
    requires Told(r.t, back, d)
    requires r.Reads(d, rest) && AtRecord(r.t, r.fi, i) && Boundary(r.t, i) && r.t[i].Pointer?
    modifies r
    ensures r.Reads(d, left) && AtRecord(r.t, r.fi, i + 2) && got == DataSeen(ElemTokens(r.t, i, FieldAt(d, i)))
  {
    FrameEntered(r.t, d, rest, r.fi, r.iters, i);
    InnerTold(r.t, back, d, i);
    ghost var u, f := r.t[i + 1].sub, FieldsOf(FieldAt(d, i));
    got, left := ReadFields(r, back, d, i, r.t[i + 1].sub, f, rest);
    assert Asked(0, (r.fi, got));
    GotAll(u, f, |u| - 1, got);
  }

  /** Read on from record i; recent are the data got last. */
  method ReadFrom(r: FrameReader, back: nat, ghost d: seq<Field>, i: int, recent: seq<Datum>, ghost rest: seq<Token>)
    returns (got: seq<Datum>, loops: seq<nat>)
    requires Readable(r.t) && Boundary(r.t, i) && AtRecord(r.t, r.fi, i) && r.Reads(d, rest)
    requires Told(r.t, back, d) && Recent(r.t, d, i, recent)
    modifies r
    ensures got == DataSeen(TokensFrom(r.t, d, i)) && loops == Lengths(r.t, d, i)
    decreases |r.t| - i
  {
    if i == |r.t| - 1 {
      NothingLeft(r.t, d, i);
      return [], [];
    }
    RecordKind(r.t, d, i);
    if r.t[i].Iter? {
      RecordList(r.t, d, rest, r.fi, r.iters, i);
      var seen, count := ReadList(r, back, d, i, rest);
      RecordAfterList(r.t, d, TokensFrom(r.t, d, Increment(r.t, i)), r.fi, r.iters, i);
      RecentAfter(r.t, d, i, seen);
      got, loops := ReadFrom(r, back, d, Increment(r.t, i), seen, TokensFrom(r.t, d, Increment(r.t, i)));
      ListSeen(r.t, d, i, seen, got);
      got, loops := seen + got, [count] + loops;
    } else if r.t[i].Pointer? {
      ghost var left;
      var seen;
      seen, left := ReadInner(r, back, d, i, rest);
      RecentAfter(r.t, d, i, seen);
      got, loops := ReadFrom(r, back, d, i + 2, seen, left);
      FrameSeen(r.t, d, i, seen, got);
      got := seen + got;
    } else if r.t[i].Padding? {
      RecentAfter(r.t, d, i, recent);
      got, loops := ReadFrom(r, back, d, i + 1, recent, rest);
    } else {
      var size := LastSize(r.t, back, d, i, recent);
      ghost var left;
      var x;
      x, left := ReadRecord(r, d, i, rest, size);
      RecentStep(r.t, d, i, recent, x);
      got, loops := ReadFrom(r, back, d, i + 1, recent + [x], left);
      got := [x] + got;
    }
  }

  /** Behind a list, an inner frame or a padding. */
  lemma RecentAfter(t: Template, d: seq<Field>, i: int, got: seq<Datum>)
    requires Readable(t) && Boundary(t, i) && i < |t| - 1 && (t[i].Iter? || t[i].Pointer? || t[i].Padding?)
    ensures Recent(t, d, Increment(t, i), got)
  {
    assert RecordOk(t, i) && ReadableRecord(t, i);
    if t[i].Iter? {
      if t[i + 1].Pointer? {
        assert RecordOk(t, i + 1);
        assert Increment(t, i + 1) == i + 3;
      } else {
        assert Increment(t, i + 1) == i + 2;
      }
    }
    RecentNone(t, d, Increment(t, i), got);
  }

  lemma NothingLeft(t: Template, d: seq<Field>, i: int)
    requires Readable(t) && i == |t| - 1
    ensures DataSeen(TokensFrom(t, d, i)) == [] && Lengths(t, d, i) == []
  {
    assert Increment(t, i) == -1;
  }

  /** Read a frame, given its template, its bytes and where the lengths of its byte strings
      stand: what is got is all the data of the document the bytes hold, and each list is gone
      round once for each of its elements, the end test alone deciding. */
  method ReadFrame(t: Template, big: bool, area: seq<Byte>, back: nat, ghost d: seq<Field>) returns (got: seq<Datum>, loops: seq<nat>)
    requires Readable(t) && Sendable(t, d) && Told(t, back, d)
    requires Holds(big, area, 0, TokensFrom(t, d, 0))
    ensures got == DataSeen(TokensFrom(t, d, 0)) && loops == Lengths(t, d, 0)
  {
    var r := new FrameReader(t, big, area);
    FrameStarts(t, d);
    got, loops := ReadFrom(r, back, d, 0, [], TokensFrom(t, d, 0));
  }

  lemma FrameStarts(t: Template, d: seq<Field>)
    requires Readable(t) && Sendable(t, d)
    ensures Standing(t, d, TokensFrom(t, d, 0), FreshInst(), []) && TokensOk(TokensFrom(t, d, 0))
    ensures Boundary(t, 0) && AtRecord(t, FreshInst(), 0)
  {
    StartState(t, d);
    FrameTokensOk(t, d, 0);
    FreshSettled(t, FreshInst());
    if |t| > 1 {
      assert ReadableRecord(t, 0);
    }
  }

  lemma RecordKind(t: Template, d: seq<Field>, i: int)
    requires Readable(t) && Boundary(t, i) && i < |t| - 1
    ensures i < Increment(t, i) < |t| && Boundary(t, Increment(t, i))
    ensures t[i].Iter? ==> RepeatsOk(t, i + 1)
    ensures t[i].Pointer? ==> FrameOk(t, i) && Increment(t, i) == i + 2 && Lengths(t, d, i) == Lengths(t, d, i + 2)
    ensures !t[i].Iter? && !t[i].Pointer? ==> Simple(t, i) && Increment(t, i) == i + 1 && Lengths(t, d, i) == Lengths(t, d, i + 1)
    ensures t[i].Padding? ==> DataSeen(TokensFrom(t, d, i)) == DataSeen(TokensFrom(t, d, i + 1))
    ensures !t[i].Iter? && !t[i].Pointer? && !t[i].Padding? ==>
      DataSeen(TokensFrom(t, d, i)) == [Seen(TokenAt(t, d, i))] + DataSeen(TokensFrom(t, d, i + 1))
  {
    assert RecordOk(t, i) && ReadableRecord(t, i);
    DecrementUndoesIncrement(t, i);
    if t[i].Pointer? {
      FrameHere(t, i);
    } else if !t[i].Iter? {
      SimpleTokens(t, d, i);
      SeenFirst(TokenAt(t, d, i), TokensFrom(t, d, i + 1));
    }
  }

  lemma ListSeen(t: Template, d: seq<Field>, i: int, seen: seq<Datum>, got: seq<Datum>)
    requires 0 <= i < |t| && t[i].Iter? && i < Increment(t, i) && seen == DataSeen(ElemsTokens(t, i + 1, ElemsOf(FieldAt(d, i))))
    requires got == DataSeen(TokensFrom(t, d, Increment(t, i)))
    ensures DataSeen(TokensFrom(t, d, i)) == seen + got
    ensures Lengths(t, d, i) == [|ElemsOf(FieldAt(d, i))|] + Lengths(t, d, Increment(t, i))
  {
    DataSeenConcat(ElemsTokens(t, i + 1, ElemsOf(FieldAt(d, i))), TokensFrom(t, d, Increment(t, i)));
    assert ItemTokens(t, d, i) == ElemsTokens(t, i + 1, ElemsOf(FieldAt(d, i)));
  }

  lemma FrameSeen(t: Template, d: seq<Field>, i: int, seen: seq<Datum>, got: seq<Datum>)
    requires Points(t, i) && seen == DataSeen(ElemTokens(t, i, FieldAt(d, i))) && got == DataSeen(TokensFrom(t, d, i + 2))
    ensures DataSeen(TokensFrom(t, d, i)) == seen + got
  {
    assert Increment(t, i) == i + 2;
    DataSeenConcat(ElemTokens(t, i, FieldAt(d, i)), TokensFrom(t, d, i + 2));
    assert ItemTokens(t, d, i) == ElemTokens(t, i, FieldAt(d, i));
  }

  /** Why no list may be empty: right after its counter, whatever that says, the end test says no, so it is
      right just for a list es that has elements; a reader that does not look at the counter itself reads on. */
  lemma EmptyListNoEnd(t: Template, s: Inst, p: int, es: seq<Field>)
    requires Readable(t) && 0 <= p == s.cur < |t| - 1 && t[p].Iter?
    requires p in s.slots && s.slots[p] == List(Loop(0, true, 0, map[], true))
    ensures !InstLoopEnd(t, s).0 && !InstPeek(t, InstLoopEnd(t, s).1).0.PadInfo?
    ensures (InstLoopEnd(t, s).0 <==> es == []) <==> es != []
  {
    assert ReadableRecord(t, p);
    var it := Loop(0, true, 0, map[], true);
    assert LoopEnd(t, p + 1, it) == (false, false, it);
    assert InstLoopEnd(t, s).1.slots == s.slots;
    if Points(t, p + 1) {
      assert InstPeek(t[p + 2].sub, FreshInst()).0.BitsInfo?;
    }
  }

  // Where the data end.

  predicate NoCounts(ks: seq<Token>) {
    forall i :: 0 <= i < |ks| ==> !ks[i].CountToken?
  }

  lemma {:induction false} HasDataConcat(a: seq<Token>, b: seq<Token>)
    ensures HasData(a + b) <==> HasData(a) || HasData(b)
  {
    if a == [] {
      assert a + b == b;
    } else {
      assert (a + b)[0] == a[0] && (a + b)[1..] == a[1..] + b;
      HasDataConcat(a[1..], b);
    }
  }

  lemma {:induction false} FlatNoCounts(u: Template, f: seq<Field>, i: int)
    requires Flat(u) && 0 <= i < |u|
    ensures NoCounts(TokensFrom(u, f, i))
    decreases |u| - i
  {
    if i < |u| - 1 {
      FlatSimple(u, i);
      SimpleTokens(u, f, i);
      FlatNoCounts(u, f, i + 1);
    }
  }

  lemma {:induction false} ElementsNoCounts(t: Template, i: int, es: seq<Field>)
    requires RepeatsOk(t, i)
    ensures NoCounts(ElemsTokens(t, i, es)) && (es != [] ==> HasData(ElemsTokens(t, i, es)))
  {
    if es != [] {
      ElementsNoCounts(t, i, es[1..]);
      ElementTakesBytes(t, i, es[0], es[1..]);
      HasDataConcat(ElemTokens(t, i, es[0]), ElemsTokens(t, i, es[1..]));
      if Points(t, i) {
        FlatNoCounts(t[i + 1].sub, FieldsOf(es[0]), 0);
      }
    }
  }
}
