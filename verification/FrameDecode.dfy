/** The reader's side of the template interpreter (src/lib/IMdkit/FrameMgr.c), and a whole
    frame read back. */
module FrameDecode {

  import opened Sealed
  import opened FrameTemplate
  import opened FrameCursor
  import opened FrameTokens
  import opened FrameWalk
  import opened FrameSetup
  import opened FrameRequests
  import opened FrameEncode
  import opened FrameLoopEnd
  import opened FrameElement
  import opened FrameRead

  predicate NonPads(ks: seq<Token>) {
    ks != [] && (!ks[0].PadToken? || NonPads(ks[1..]))
  }

  /** The first token that is no padding, and the tokens after it. */
  function NextToken(ks: seq<Token>): Token
    requires NonPads(ks)
  {
    if ks[0].PadToken? then NextToken(ks[1..]) else ks[0]
  }

  function AfterNext(ks: seq<Token>): seq<Token>
    requires NonPads(ks)
  {
    if ks[0].PadToken? then AfterNext(ks[1..]) else ks[1..]
  }

  /** The paddings before the next datum. */
  function Lead(ks: seq<Token>): nat {
    if ks != [] && ks[0].PadToken? then 1 + Lead(ks[1..]) else 0
  }

  /** A number arrives modulo its width. */
  function Seen(k: Token): Datum {
    match k
    case BitsToken(w, v) => Datum(v % Limit(w), [])
    case CountToken(_, v) => Datum(v, [])
    case BytesToken(b) => Datum(0, b)
    case PadToken(_) => Datum(0, [])
  }

  /** The element or inner frame being read has a datum to come, or the frame has, with no list
      before it; a byte string has been given its size. */
  ghost predicate CanGet(t: Template, s: Inst, d: seq<Field>) {
    && 0 <= s.cur < |t|
    && if t[s.cur].Iter? then
         var it, es := ListAt(s.slots, s.cur), ElemsOf(FieldAt(d, s.cur));
         0 <= it.cur < |es| && NonPads(ElementRest(t, s.cur + 1, it, es)) && ListSized(t, s.cur + 1, it)
       else if t[s.cur].Pointer? then
         Points(t, s.cur) && FrameDue(t[s.cur + 1].sub, SubAt(s.slots, s.cur), FieldsOf(FieldAt(d, s.cur)))
       else
         Pending(t, s.cur) < 0 && NonPads(TokensFrom(t, d, s.cur)) && (t[s.cur].Barray? ==> SizeAt(s.slots, s.cur) != NO_VALUE)
  }

  ghost predicate FrameDue(u: Template, fi: Inst, f: seq<Field>) {
    fi.cur < |u| - 1 && NonPads(Rest(u, fi, f)) && Sized(u, fi)
  }

  /** The cursor is n records on: in the element or inner frame being read, or in the frame; a byte
      string there has not been given its size, a list or inner frame there not been begun. */
  ghost predicate Moves(t: Template, s: Inst, s': Inst, n: int) {
    if 0 <= s.cur < |t| && t[s.cur].Iter? then
      var it, it' := ListAt(s.slots, s.cur), ListAt(s'.slots, s.cur);
      && s'.cur == s.cur
      && if Points(t, s.cur + 1) then
           && it'.cur == it.cur && SubAt(it'.slots, it.cur).cur == SubAt(it.slots, it.cur).cur + n
           && SizeAt(SubAt(it'.slots, it.cur).slots, SubAt(it'.slots, it.cur).cur) == NO_VALUE
         else it'.cur == it.cur + 1
    else if Points(t, s.cur) then
      s'.cur == s.cur && InnerMoves(SubAt(s.slots, s.cur), SubAt(s'.slots, s.cur), n)
    else s'.cur == s.cur + n && Fresh(t, s')
  }

  predicate InnerMoves(fi: Inst, fi': Inst, n: int) {
    fi'.cur == fi.cur + n && SizeAt(fi'.slots, fi'.cur) == NO_VALUE
  }

  ghost predicate Fresh(t: Template, s: Inst) {
    0 <= s.cur < |t| && (t[s.cur].Barray? ==> SizeAt(s.slots, s.cur) == NO_VALUE) && (t[s.cur].Iter? ==> ListAt(s.slots, s.cur).start)
    && FrameFresh(t, s)
  }

  /** Still in the same element or inner frame, or still in neither. */
  predicate SamePlace(t: Template, s: Inst, s': Inst) {
    if 0 <= s.cur < |t| && t[s.cur].Iter? then s'.cur == s.cur && Points(t, s.cur + 1)
    else if Points(t, s.cur) then s'.cur == s.cur && SubAt(s'.slots, s.cur).cur < |t[s.cur + 1].sub| - 1
    else 0 <= s'.cur < |t| && !t[s'.cur].Iter? && !t[s'.cur].Pointer?
  }

  lemma MovesOn(t: Template, s: Inst, s1: Inst, s2: Inst, n: int)
    requires Moves(t, s, s1, 1) && SamePlace(t, s, s1) && Moves(t, Settled(t, s1), s2, n)
    ensures Moves(t, s, s2, 1 + n)
  {
  }

  /** One token of an inner frame that is no list element. */
  lemma FrameToken(t: Template, s: Inst, d: seq<Field>, iters: seq<Counting>, u: Template, fi: Inst, rest: seq<Token>, info: Info, s': Inst)
    requires Readable(t) && State(t, s, d, iters) && Points(t, s.cur) && u == t[s.cur + 1].sub && fi == SubAt(s.slots, s.cur)
    requires FrameDue(u, fi, FieldsOf(FieldAt(d, s.cur))) && (info, s') == InstNext(t, s) && rest == Rest(t, s, d)
    ensures iters == [] && State(t, s', d, []) && rest != [] && Reports(info, rest[0]) && !rest[0].CountToken? && Rest(t, s', d) == rest[1..]
    ensures Moves(t, s, s', 1) && (rest[0].PadToken? ==> CanGet(t, s', d) && SamePlace(t, s, s'))
  {
    var f, fi' := FieldsOf(FieldAt(d, s.cur)), fi.(cur := fi.cur + 1);
    FrameHere(t, s.cur);
    FrameTokenStep(t, s, d, iters, u, fi, info, s');
    assert SubAt(s'.slots, s.cur) == fi';
    FrameTokenOn(u, fi, f, fi');
  }

  lemma FrameTokenOn(u: Template, fi: Inst, f: seq<Field>, fi': Inst)
    requires ElementOk(u) && !u[|u| - 2].Padding? && Reading(u, fi, f) && FrameDue(u, fi, f) && fi' == fi.(cur := fi.cur + 1)
    ensures Rest(u, fi, f) != [] && !Rest(u, fi, f)[0].CountToken? && InnerMoves(fi, fi', 1)
    ensures Rest(u, fi, f)[0].PadToken? ==> FrameDue(u, fi', f)
  {
    FlatRest(u, fi, f);
    FlatSimple(u, fi.cur);
    SimpleTokens(u, f, fi.cur);
    FlatRest(u, fi', f);
  }

  /** One token outside lists and inner frames. */
  lemma PlainToken(t: Template, s: Inst, d: seq<Field>, iters: seq<Counting>, info: Info, s1: Inst, n: int,
                   r: (seq<Counting>, int), s': Inst)
    requires Readable(t) && State(t, s, d, iters) && CanGet(t, s, d) && !t[s.cur].Iter? && !t[s.cur].Pointer? && s.cur < |t| - 1 && !t[s.cur].Counter?
    requires (info, s1) == InstNext(t, s) && Rest(t, s, d) != [] && n == TokenSize(Rest(t, s, d)[0])
    requires r == CounterIncr(Started(iters, s, s1), n) && s' == Fix(s1, r.1)
    ensures State(t, s', d, r.0) && Reports(info, Rest(t, s, d)[0]) && Rest(t, s', d) == Rest(t, s, d)[1..]
    ensures s'.cur == s.cur + 1 && Pending(t, s'.cur) < 0 && Fresh(t, s')
    ensures Rest(t, s, d)[0].PadToken? ==> CanGet(t, s', d) && !t[s'.cur].Pointer?
  {
    var i := s.cur;
    assert RecordOk(t, i) && ReadableRecord(t, i);
    assert iters == [] && r == ([], -1);
    PlainInfo(t, s, d, info, s1);
    PlainStep(t, s, d, iters, s1);
    assert ViewAt(s.slots, i + 1) == ViewAt(map[], i + 1);
    if !t[i].Padding? {
      NonePending(t, i);
    }
    RestNotBegun(t, s', d, []);
    if i + 1 < |t| - 1 {
      assert ReadableRecord(t, i + 1);
    }
    RestNotBegun(t, s, d, iters);
  }

  /** One token inside a list. */
  lemma ListToken(t: Template, s: Inst, d: seq<Field>, iters: seq<Counting>, p: int, it: Loop, es: seq<Field>, info: Info, s1: Inst,
                  it1: Loop, n: int, r: (seq<Counting>, int), s': Inst)
    requires Readable(t) && State(t, s, d, iters) && p == s.cur && t[p].Iter?
    requires it == ListAt(s.slots, p) && es == ElemsOf(FieldAt(d, p)) && 0 <= it.cur < |es|
    requires ElementRest(t, p + 1, it, es) != [] && ListSized(t, p + 1, it)
    requires (info, s1) == InstNext(t, s) && it1 == LoopNext(t, p + 1, it).1 && Rest(t, s, d) != [] && n == TokenSize(Rest(t, s, d)[0])
    requires r == CounterIncr(Started(iters, s, s1), n) && s' == Fix(s1, r.1)
    ensures State(t, s', d, r.0) && Reports(info, Rest(t, s, d)[0]) && Rest(t, s', d) == Rest(t, s, d)[1..]
    ensures s'.cur == p && ListAt(s'.slots, p) == it1.(exp := ListAt(s'.slots, p).exp) && ElementAfter(t, p + 1, it, es, it1)
    ensures Rest(t, s, d)[0] == ElementRest(t, p + 1, it, es)[0] && (info.PadInfo? ==> ListSized(t, p + 1, it1))
  {
    ListCursor(t, s, d, iters, p, it, es, info, s1, it1);
    ListHere(t, s, d, iters, p);
    LoopRestHead(t, p + 1, it, es);
    ListTokenStep(t, s, d, iters, p, it, es, n, info, s1, it1, r, s');
    ListTokenRest(t, s, d, iters, p, it, es, s', r.0, it1);
  }

  lemma {:induction false} OneListToken(t: Template, s: Inst, d: seq<Field>, iters: seq<Counting>, rest: seq<Token>, p: int, it: Loop, es: seq<Field>,
                                        info: Info, s1: Inst, it1: Loop, n: int, r: (seq<Counting>, int), s': Inst)
    requires Readable(t) && State(t, s, d, iters) && p == s.cur && t[p].Iter? && it == ListAt(s.slots, p) && es == ElemsOf(FieldAt(d, p))
    requires 0 <= it.cur < |es| && NonPads(ElementRest(t, p + 1, it, es)) && ListSized(t, p + 1, it)
    requires (info, s1) == InstNext(t, s) && rest == Rest(t, s, d) != [] && n == TokenSize(rest[0]) && it1 == LoopNext(t, p + 1, it).1
    requires r == CounterIncr(Started(iters, s, s1), n) && s' == Fix(s1, r.1)
    ensures State(t, s', d, r.0) && Reports(info, rest[0]) && Rest(t, s', d) == rest[1..]
    ensures rest[0] == ElementRest(t, p + 1, it, es)[0] && !rest[0].CountToken?
    ensures s'.cur == p && ListAt(s'.slots, p) == it1.(exp := ListAt(s'.slots, p).exp) && ElementAfter(t, p + 1, it, es, it1)
    ensures rest[0].PadToken? ==> ListSized(t, p + 1, it1)
  {
    ListHere(t, s, d, iters, p);
    ElementNoCounter(t, p + 1, it, es);
    ListToken(t, s, d, iters, p, it, es, info, s1, it1, n, r, s');
  }

  lemma {:induction false} ListMoves(t: Template, s: Inst, s': Inst, p: int, it: Loop, es: seq<Field>, it1: Loop)
    requires p == s.cur == s'.cur && 0 <= p < |t| && t[p].Iter? && it == ListAt(s.slots, p) && 0 <= it.cur < |es|
    requires ListAt(s'.slots, p) == it1.(exp := ListAt(s'.slots, p).exp) && ElementAfter(t, p + 1, it, es, it1)
    ensures Moves(t, s, s', 1) && (Points(t, p + 1) ==> SamePlace(t, s, s'))
  {
  }

  lemma {:induction false} TokenInList(t: Template, s: Inst, d: seq<Field>, iters: seq<Counting>, rest: seq<Token>, p: int, info: Info, s1: Inst, n: int,
                                       r: (seq<Counting>, int), s': Inst)
    requires Readable(t) && State(t, s, d, iters) && CanGet(t, s, d) && p == s.cur < |t| - 1 && t[p].Iter?
    requires (info, s1) == InstNext(t, s) && rest == Rest(t, s, d) != [] && n == TokenSize(rest[0])
    requires r == CounterIncr(Started(iters, s, s1), n) && s' == Fix(s1, r.1)
    ensures State(t, s', d, r.0) && Reports(info, rest[0]) && !rest[0].CountToken? && Rest(t, s', d) == rest[1..]
    ensures Moves(t, s, s', 1) && (rest[0].PadToken? ==> CanGet(t, s', d) && SamePlace(t, s, s'))
  {
    var it, es := ListAt(s.slots, p), ElemsOf(FieldAt(d, p));
    var it1 := LoopNext(t, p + 1, it).1;
    OneListToken(t, s, d, iters, rest, p, it, es, info, s1, it1, n, r, s');
    ListMoves(t, s, s', p, it, es, it1);
    if rest[0].PadToken? {
      StillGet(t, s, d, p, it, es, it1, s');
    }
  }

  /** One token, wherever it is, and whether the datum is still to come after a padding. */
  lemma {:induction false} OneToken(t: Template, s: Inst, d: seq<Field>, iters: seq<Counting>, rest: seq<Token>, info: Info, s1: Inst, n: int,
                 r: (seq<Counting>, int), s': Inst)
    requires Readable(t) && State(t, s, d, iters) && CanGet(t, s, d) && s.cur < |t| - 1 && !t[s.cur].Counter?
    requires (info, s1) == InstNext(t, s) && rest == Rest(t, s, d) != [] && n == TokenSize(rest[0])
    requires r == CounterIncr(Started(iters, s, s1), n) && s' == Fix(s1, r.1)
    ensures State(t, s', d, r.0) && Reports(info, rest[0]) && !rest[0].CountToken? && Rest(t, s', d) == rest[1..]
    ensures Moves(t, s, s', 1) && (rest[0].PadToken? ==> CanGet(t, s', d) && SamePlace(t, s, s'))
  {
    if t[s.cur].Iter? {
      TokenInList(t, s, d, iters, rest, s.cur, info, s1, n, r, s');
    } else if t[s.cur].Pointer? {
      FrameToken(t, s, d, iters, t[s.cur + 1].sub, SubAt(s.slots, s.cur), rest, info, s1);
      assert r == ([], -1);
    } else {
      PlainToken(t, s, d, iters, info, s1, n, r, s');
      PlainHead(t, s, d, iters, rest);
    }
  }

  /** Only at a counter is the next token one. */
  lemma PlainHead(t: Template, s: Inst, d: seq<Field>, iters: seq<Counting>, rest: seq<Token>)
    requires Readable(t) && State(t, s, d, iters) && s.cur < |t| - 1 && !t[s.cur].Counter?
    requires !t[s.cur].Iter? && !t[s.cur].Pointer? && rest == Rest(t, s, d)
    ensures rest != [] && !rest[0].CountToken?
  {
    RestNotBegun(t, s, d, iters);
    assert ReadableRecord(t, s.cur);
    SimpleTokens(t, d, s.cur);
  }

  lemma ElementNoCounter(t: Template, i: int, it: Loop, es: seq<Field>)
    requires RepeatsOk(t, i) && ListReading(t, i, it, es) && it.cur < |es| && ElementRest(t, i, it, es) != []
    ensures !ElementRest(t, i, it, es)[0].CountToken?
  {
    if Points(t, i) {
      var u, fi, f := t[i + 1].sub, SubAt(it.slots, it.cur), FieldsOf(es[it.cur]);
      ElementFresh(u, f);
      FlatRest(u, fi, f);
      FlatSimple(u, fi.cur);
      SimpleTokens(u, f, fi.cur);
    }
  }

  lemma StillGet(t: Template, s: Inst, d: seq<Field>, p: int, it: Loop, es: seq<Field>, it1: Loop, s': Inst)
    requires Readable(t) && CanGet(t, s, d) && p == s.cur == s'.cur < |t| - 1 && t[p].Iter?
    requires it == ListAt(s.slots, p) && es == ElemsOf(FieldAt(d, p)) && ListSized(t, p + 1, it1)
    requires ElementAfter(t, p + 1, it, es, it1) && ListAt(s'.slots, p) == it1.(exp := ListAt(s'.slots, p).exp)
    requires ElementRest(t, p + 1, it, es)[0].PadToken?
    ensures CanGet(t, s', d) && Points(t, p + 1)
  {
    assert ReadableRecord(t, p);
  }

  /** The bytes of the first token are in the buffer, and the others after them. */
  lemma HoldsFirst(big: bool, area: seq<Byte>, idx: nat, rest: seq<Token>)
    requires Holds(big, area, idx, rest) && TokensOk(rest) && rest != []
    ensures idx + TokenSize(rest[0]) <= |area| && Holds(big, area, idx + TokenSize(rest[0]), rest[1..]) && TokensOk(rest[1..])
    ensures TokenSize(rest[0]) >= 0
    ensures !rest[0].PadToken? ==> area[idx..idx + TokenSize(rest[0])] == TokenBytes(big, rest[0])
    ensures rest[0].BitsToken? || rest[0].CountToken? ==>
      BytesNum(big, area[idx..idx + rest[0].w]) == rest[0].v % Limit(rest[0].w)
  {
    assert TokenOk(rest[0]);
    if rest[0].BitsToken? || rest[0].CountToken? {
      NumRoundTrip(big, rest[0].w, rest[0].v);
    }
  }

  /** No byte, no change. */
  lemma NoBytes(t: Template, s: Inst, d: seq<Field>, iters: seq<Counting>, s1: Inst)
    requires State(t, s, d, iters)
    ensures CounterIncr(Started(iters, s, s1), 0) == (Started(iters, s, s1), -1)
  {
    if Pending(t, s.cur) >= 0 && iters != [] {
      assert iters == [iters[0]];
      OneStarted(iters[0], s, s1);
      var f := Started(iters, s, s1)[0];
      assert f.counter < f.end;
      assert [f][1..] == [] && CounterIncr([], 0) == ([], -1);
      assert [f] + [] == [f];
    }
  }

  lemma NonPadsConcat(a: seq<Token>, b: seq<Token>)
    requires NonPads(a)
    ensures NonPads(a + b) && NextToken(a + b) == NextToken(a) && AfterNext(a + b) == AfterNext(a) + b
  {
    assert (a + b)[0] == a[0] && (a + b)[1..] == a[1..] + b;
    if a[0].PadToken? {
      NonPadsConcat(a[1..], b);
    }
  }

  /** There is a datum to get, and the record at the cursor is not the end. */
  lemma GetHead(t: Template, s: Inst, d: seq<Field>, iters: seq<Counting>, rest: seq<Token>)
    requires Readable(t) && State(t, s, d, iters) && CanGet(t, s, d) && rest == Rest(t, s, d)
    ensures s.cur < |t| - 1 && NonPads(rest)
    ensures t[s.cur].Counter? ==> rest[0] == CountToken(t[s.cur].width, CountOf(t, d, s.cur)) && rest[1..] == TokensFrom(t, d, s.cur + 1)
  {
    if t[s.cur].Iter? {
      var p, it, es := s.cur, ListAt(s.slots, s.cur), ElemsOf(FieldAt(d, s.cur));
      ListHere(t, s, d, iters, p);
      ElementFirst(t, p + 1, it, es);
      NonPadsConcat(LoopRest(t, p + 1, it, es), TokensFrom(t, d, Increment(t, p)));
    } else if t[s.cur].Pointer? {
      FrameHere(t, s.cur);
      RestAtFrame(t, s, d);
      NonPadsConcat(Rest(t[s.cur + 1].sub, SubAt(s.slots, s.cur), FieldsOf(FieldAt(d, s.cur))), TokensFrom(t, d, s.cur + 2));
    } else {
      RestNotBegun(t, s, d, iters);
      assert s.cur < |t| - 1;
      if t[s.cur].Counter? {
        SimpleTokens(t, d, s.cur);
      }
    }
  }

  lemma ElementFirst(t: Template, i: int, it: Loop, es: seq<Field>)
    requires 0 <= it.cur < |es| && NonPads(ElementRest(t, i, it, es))
    ensures LoopRest(t, i, it, es) == ElementRest(t, i, it, es) + ElemsTokens(t, i, es[it.cur + 1..])
    ensures NonPads(LoopRest(t, i, it, es)) && NextToken(LoopRest(t, i, it, es)) == NextToken(ElementRest(t, i, it, es))
  {
    NonPadsConcat(ElementRest(t, i, it, es), ElemsTokens(t, i, es[it.cur + 1..]));
  }

  lemma CounterOpens(t: Template, d: seq<Field>, s: Inst, iters: seq<Counting>, at: int, es: seq<Field>, s1: Inst, end: int,
                     s': Inst, iters': seq<Counting>, w: int)
    requires Readable(t) && State(t, s, d, iters) && s.cur < |t| - 1 && t[s.cur].Counter?
    requires s.cur < at == Pending(t, s.cur + 1) < |t| - 1 && RepeatsOk(t, at + 1) && es == ElemsOf(FieldAt(d, at)) != []
    requires s' == Inst(s.cur + 1, s.slots[at := List(Loop(0, true, 0, map[], true))])
    requires end == ElemsSize(t, at + 1, es) && iters' == Started(iters, s, s1) + [Counting(at, false, 0, end)]
    ensures State(t, s', d, iters') && Rest(t, s', d) == TokensFrom(t, d, s.cur + 1) && CounterIncr(iters', w) == (iters', -1)
    ensures Fresh(t, s')
  {
    assert ViewAt(s.slots, s.cur + 1) == ViewAt(map[], s.cur + 1);
    assert iters == [] && Started([], s, s1) == [];
    assert iters' == [Counting(at, false, 0, end)];
    CounterStep(t, s, d, iters, s', at, es, iters');
    assert t[s'.cur].Iter? ==> s'.cur == at;
    RestNotBegun(t, s', d, iters');
    assert iters'[1..] == [] && CounterIncr([], w) == ([], -1);
    assert iters' + [] == iters';
  }

  // What a reader may rely on, for its callers: the conditions are looked into only in the
  // proofs that ask.

  /** The reader stands before the tokens `rest` of document d. */
  ghost predicate Standing(t: Template, d: seq<Field>, rest: seq<Token>, s: Inst, iters: seq<Counting>) {
    forall n :: Asked(n, (s, iters)) ==> Readable(t) && Sendable(t, d) && State(t, s, d, iters) && Rest(t, s, d) == rest
  }

  /** There is a datum to get. */
  ghost predicate Due(t: Template, d: seq<Field>, s: Inst) {
    forall n :: Asked(n, s) ==> CanGet(t, Settled(t, s), d)
  }

  /** What the cursor reports. */
  lemma Glance(t: Template, d: seq<Field>, rest: seq<Token>, s: Inst, iters: seq<Counting>, info: Info, s1: Inst)
    requires Standing(t, d, rest, s, iters) && Due(t, d, s) && (info, s1) == InstNext(t, s)
    ensures NonPads(rest) && !info.End? && !info.Stuck?
    ensures info.CounterInfo? ==> rest[0].CountToken? && rest[0].w == info.w && 0 <= rest[0].v < Limit(info.w)
    ensures !info.CounterInfo? ==> Reports(info, rest[0]) && (IsData(rest[0]) || rest[0].PadToken?)
  {
    assert Asked(0, (s, iters)) && Asked(0, s);
    var s0 := Settled(t, s);
    SettledState(t, s, d, iters, s0);
    GetHead(t, s0, d, iters, rest);
    if t[s0.cur].Counter? {
      CounterReports(t, s0, d, iters, (info, s1), s0.cur + t[s0.cur].offset);
    } else {
      var r := CounterIncr(Started(iters, s0, s1), TokenSize(rest[0]));
      OneToken(t, s0, d, iters, rest, info, s1, TokenSize(rest[0]), r, Fix(s1, r.1));
    }
  }

  /** After a counter. */
  lemma CounterOn(t: Template, d: seq<Field>, rest: seq<Token>, s: Inst, iters: seq<Counting>, info: Info, s1: Inst,
                  s': Inst, iters': seq<Counting>)
    requires Standing(t, d, rest, s, iters) && Due(t, d, s) && (info, s1) == InstNext(t, s) && info.CounterInfo?
    requires rest != [] && rest[0].CountToken? && s' == Watch(s1, info.at)
    requires iters' == Started(iters, s, s1) + [Counting(info.at, false, 0, rest[0].v)]
    ensures Standing(t, d, rest[1..], s', iters') && CounterIncr(iters', info.w) == (iters', -1) && Moves(t, Settled(t, s), s', 1)
  {
    assert Asked(0, (s, iters)) && Asked(0, s);
    var s0 := Settled(t, s);
    SettledState(t, s, d, iters, s0);
    GetHead(t, s0, d, iters, rest);
    AtCounter(t, s0, d, iters, rest, info, s1);
    CounterReports(t, s0, d, iters, (info, s1), s0.cur + t[s0.cur].offset);
    var es := ElemsOf(FieldAt(d, info.at));
    CountIs(t, d, s0.cur, info.at, es);
    CounterOpens(t, d, s0, iters, info.at, es, s1, rest[0].v, s', iters', info.w);
  }

  lemma AtCounter(t: Template, s: Inst, d: seq<Field>, iters: seq<Counting>, rest: seq<Token>, info: Info, s1: Inst)
    requires Readable(t) && State(t, s, d, iters) && CanGet(t, s, d) && s.cur < |t| - 1 && rest == Rest(t, s, d) != []
    requires (info, s1) == InstNext(t, s) && info.CounterInfo?
    ensures t[s.cur].Counter?
  {
    if !t[s.cur].Counter? {
      var n := TokenSize(rest[0]);
      var r := CounterIncr(Started(iters, s, s1), n);
      OneToken(t, s, d, iters, rest, info, s1, n, r, Fix(s1, r.1));
    }
  }

  /** After a number, a byte string or a padding. */
  lemma TokenOn(t: Template, d: seq<Field>, rest: seq<Token>, s: Inst, iters: seq<Counting>, info: Info, s1: Inst,
                r: (seq<Counting>, int), s': Inst)
    requires Standing(t, d, rest, s, iters) && Due(t, d, s) && (info, s1) == InstNext(t, s) && !info.CounterInfo?
    requires rest != [] && r == CounterIncr(Started(iters, s, s1), TokenSize(rest[0])) && s' == Fix(s1, r.1)
    ensures Standing(t, d, rest[1..], s', r.0) && Moves(t, Settled(t, s), s', 1)
    ensures rest[0].PadToken? ==> Due(t, d, s') && SamePlace(t, Settled(t, s), s')
    ensures CounterIncr(Started(iters, s, s1), 0) == (Started(iters, s, s1), -1)
  {
    assert Asked(0, (s, iters)) && Asked(0, s);
    var s0 := Settled(t, s);
    SettledState(t, s, d, iters, s0);
    GetHead(t, s0, d, iters, rest);
    if t[s0.cur].Counter? {
      CounterReports(t, s0, d, iters, (info, s1), s0.cur + t[s0.cur].offset);
    }
    OneToken(t, s0, d, iters, rest, info, s1, TokenSize(rest[0]), r, s');
    NoBytes(t, s, d, iters, s1);
    if rest[0].PadToken? {
      PlaceSettled(t, s0, s');
    }
  }

  lemma PlaceSettled(t: Template, s: Inst, s': Inst)
    requires SamePlace(t, s, s')
    ensures Settled(t, s') == s'
  {
  }

  lemma SmallMod(v: int, m: int)
    requires 0 <= v < m
    ensures v % m == v
  {
  }

  // The end test of a list.

  /** Between two elements: n of them have not been touched, and if one has been begun only
      paddings may be left of it. */
  ghost predicate Resting(t: Template, i: int, it: Loop, es: seq<Field>, n: int) {
    && n == Unread(t, i, it, es)
    && (0 <= it.cur < |es| && n < |es| - it.cur ==> PadsOnly(ElementRest(t, i, it, es)))
  }

  /** The list at record p comes next, or is being read and the reader is between elements. */
  ghost predicate Between(t: Template, d: seq<Field>, s: Inst, p: int, n: int) {
    forall m :: Asked(m, s) ==>
      p == Pending(t, s.cur) >= 0 && Resting(t, p + 1, ListAt(s.slots, p), ElemsOf(FieldAt(d, p)), n)
  }

  /** The reader stands before element k of the list at record p. */
  ghost predicate AtElement(t: Template, s: Inst, p: int, k: int) {
    && s.cur == p && 0 <= p < |t| && t[p].Iter? && ListAt(s.slots, p).cur == k
    && (Points(t, p + 1) ==> SubAt(ListAt(s.slots, p).slots, k) == FreshInst())
  }

  /** The list has something left. */
  ghost predicate Unfinished(t: Template, d: seq<Field>, s: Inst, p: int) {
    s.cur == p ==>
      && 0 <= ListAt(s.slots, p).cur < |ElemsOf(FieldAt(d, p))|
      && ElementRest(t, p + 1, ListAt(s.slots, p), ElemsOf(FieldAt(d, p))) != []
  }

  lemma TestHere(t: Template, d: seq<Field>, rest: seq<Token>, s: Inst, iters: seq<Counting>, p: int, n: int, r: (bool, Inst))
    requires Readable(t) && State(t, s, d, iters) && Rest(t, s, d) == rest && p == Pending(t, s.cur) == s.cur
    requires Resting(t, p + 1, ListAt(s.slots, p), ElemsOf(FieldAt(d, p)), n) && r == InstLoopEnd(t, s)
    ensures State(t, r.1, d, iters) && Rest(t, r.1, d) == rest
    ensures r.0 ==> n == 0 && 0 <= p < |t| && r.1.cur == Increment(t, p) && FrameFresh(t, r.1)
    ensures !r.0 ==> r.1.cur == p && Unfinished(t, d, r.1, p) && Resting(t, p + 1, ListAt(r.1.slots, p), ElemsOf(FieldAt(d, p)), n)
  {
    var it, es := ListAt(s.slots, p), ElemsOf(FieldAt(d, p));
    PendingIsList(t, s.cur);
    TestStep(t, s, d, iters, p, it, es, r);
    if !r.0 {
      RestingTest(t, p + 1, it, ListAt(r.1.slots, p), es, n);
    }
  }

  lemma RestingTest(t: Template, i: int, it: Loop, it': Loop, es: seq<Field>, n: int)
    requires Resting(t, i, it, es, n) && Unread(t, i, it', es) == Unread(t, i, it, es) && it.cur <= it'.cur
    requires 0 <= it.cur && (it'.cur == it.cur < |es| ==> ElementRest(t, i, it', es) == ElementRest(t, i, it, es))
    ensures Resting(t, i, it', es, n)
  {
  }

  /** The test says yes just when all elements have been read, and steps past the list. */
  lemma TestOn(t: Template, d: seq<Field>, rest: seq<Token>, s: Inst, iters: seq<Counting>, p: int, n: int, r: (bool, Inst))
    requires Standing(t, d, rest, s, iters) && Between(t, d, s, p, n) && r == InstLoopEnd(t, s)
    ensures Standing(t, d, rest, r.1, iters) && 0 <= p < |t| && t[p].Iter?
    ensures r.0 ==> n == 0 && r.1.cur == Increment(t, p) && FrameFresh(t, r.1)
    ensures !r.0 ==> Between(t, d, r.1, p, n) && (forall m :: Asked(m, r.1) ==> Unfinished(t, d, r.1, p))
  {
    assert Asked(0, (s, iters)) && Asked(0, s);
    PendingIsList(t, s.cur);
    if s.cur == p {
      TestHere(t, d, rest, s, iters, p, n, r);
    } else {
      assert r == (false, s);
    }
  }

  lemma {:induction false} PeekHere(t: Template, d: seq<Field>, rest: seq<Token>, s: Inst, iters: seq<Counting>, p: int, n: int, r: (Info, Inst))
    requires Readable(t) && State(t, s, d, iters) && Rest(t, s, d) == rest && p == Pending(t, s.cur) == s.cur && Unfinished(t, d, s, p)
    requires Resting(t, p + 1, ListAt(s.slots, p), ElemsOf(FieldAt(d, p)), n) && r == InstPeek(t, s)
    ensures State(t, r.1, d, iters) && Rest(t, r.1, d) == rest != [] && r.1.cur == p && Unfinished(t, d, r.1, p)
    ensures Resting(t, p + 1, ListAt(r.1.slots, p), ElemsOf(FieldAt(d, p)), n)
    ensures r.0.PadInfo? ==> rest[0] == PadToken(r.0.num) && ListSized(t, p + 1, ListAt(r.1.slots, p))
    ensures !r.0.PadInfo? ==> 0 < n <= |ElemsOf(FieldAt(d, p))| && AtElement(t, r.1, p, |ElemsOf(FieldAt(d, p))| - n)
  {
    var it, es := ListAt(s.slots, p), ElemsOf(FieldAt(d, p));
    PendingIsList(t, s.cur);
    PeekStep(t, s, d, iters, p, it, es, r);
    ListHead(t, s, d, iters, p, it, es);
    PeekLeaves(t, d, p, n, it, es, r.0, r.1, ListAt(r.1.slots, p));
  }

  /** A look ahead changes nothing of what is left of the list; unless it saw a padding, an element is next. */
  lemma {:induction false} PeekLeaves(t: Template, d: seq<Field>, p: int, n: int, it: Loop, es: seq<Field>, info: Info, s': Inst, it': Loop)
    requires 0 <= p == s'.cur < |t| && t[p].Iter? && it' == ListAt(s'.slots, p) && es == ElemsOf(FieldAt(d, p))
    requires Resting(t, p + 1, it, es, n) && 0 <= it.cur < |es| && ElementRest(t, p + 1, it, es) != [] && it'.cur == it.cur
    requires ElementRest(t, p + 1, it', es) == ElementRest(t, p + 1, it, es) && Unread(t, p + 1, it', es) == Unread(t, p + 1, it, es)
    requires info.PadInfo? <==> ElementRest(t, p + 1, it, es)[0].PadToken?
    ensures Unfinished(t, d, s', p) && Resting(t, p + 1, it', es, n)
    ensures !info.PadInfo? ==> 0 < n <= |es| && AtElement(t, s', p, |es| - n)
  {
    RestingSame(t, p + 1, it, it', es, n);
    if !info.PadInfo? {
      NotBegun(t, p + 1, it', es, n);
    }
  }

  lemma RestingSame(t: Template, i: int, it: Loop, it': Loop, es: seq<Field>, n: int)
    requires Resting(t, i, it, es, n) && Unread(t, i, it', es) == Unread(t, i, it, es) && it'.cur == it.cur
    requires 0 <= it.cur < |es| ==> ElementRest(t, i, it', es) == ElementRest(t, i, it, es)
    ensures Resting(t, i, it', es, n)
  {
  }

  /** If the element at the cursor has a datum to come, it has not been begun. */
  lemma NotBegun(t: Template, i: int, it: Loop, es: seq<Field>, n: int)
    requires Resting(t, i, it, es, n) && 0 <= it.cur < |es| && ElementRest(t, i, it, es) != [] && !ElementRest(t, i, it, es)[0].PadToken?
    ensures n == |es| - it.cur && (Points(t, i) ==> SubAt(it.slots, it.cur) == FreshInst())
  {
  }

  lemma ListHead(t: Template, s: Inst, d: seq<Field>, iters: seq<Counting>, p: int, it: Loop, es: seq<Field>)
    requires Readable(t) && State(t, s, d, iters) && p == s.cur && t[p].Iter?
    requires it == ListAt(s.slots, p) && es == ElemsOf(FieldAt(d, p)) && 0 <= it.cur < |es| && ElementRest(t, p + 1, it, es) != []
    ensures Rest(t, s, d) != [] && Rest(t, s, d)[0] == ElementRest(t, p + 1, it, es)[0]
  {
    ListHere(t, s, d, iters, p);
    LoopRestHead(t, p + 1, it, es);
    DropConcat(LoopRest(t, p + 1, it, es), TokensFrom(t, d, Increment(t, p)));
  }

  /** Before the list, a padding; at the list, a padding of the element read last, or the
      next element. */
  lemma PeekOn(t: Template, d: seq<Field>, rest: seq<Token>, s: Inst, iters: seq<Counting>, p: int, n: int, r: (Info, Inst))
    requires Standing(t, d, rest, s, iters) && Between(t, d, s, p, n) && r == InstPeek(t, s)
    requires forall m :: Asked(m, s) ==> Unfinished(t, d, s, p)
    ensures Standing(t, d, rest, r.1, iters) && rest != []
    ensures r.0.PadInfo? ==> rest[0] == PadToken(r.0.num) && Between(t, d, r.1, p, n)
    ensures r.0.PadInfo? ==> forall m :: Asked(m, r.1) ==>
      Unfinished(t, d, r.1, p) && (r.1.cur == p ==> ListSized(t, p + 1, ListAt(r.1.slots, p)))
    ensures !r.0.PadInfo? ==> 0 < n <= |ElemsOf(FieldAt(d, p))| && AtElement(t, r.1, p, |ElemsOf(FieldAt(d, p))| - n)
  {
    assert Asked(0, (s, iters)) && Asked(0, s);
    PendingIsList(t, s.cur);
    if s.cur == p {
      PeekHere(t, d, rest, s, iters, p, n, r);
    } else {
      assert t[s.cur].Padding?;
      PassedFilled(t, s, d, s.cur);
      BackTotalIs(t, s, d, s.cur, t[s.cur].number);
      RestNotBegun(t, s, d, iters);
      SimpleTokens(t, d, s.cur);
    }
  }

  /** A padding of the element read last. */
  lemma RestingPad(t: Template, i: int, it: Loop, it1: Loop, it': Loop, es: seq<Field>, n: int)
    requires Resting(t, i, it, es, n) && 0 <= it.cur < |es| && ElementRest(t, i, it, es) != [] && ElementRest(t, i, it, es)[0].PadToken?
    requires ElementAfter(t, i, it, es, it1) && it' == it1.(exp := it'.exp) && RepeatsOk(t, i) && ListReading(t, i, it, es)
    ensures Resting(t, i, it', es, n)
  {
    if Points(t, i) {
      ElementFresh(t[i + 1].sub, FieldsOf(es[it.cur]));
      assert SubAt(it'.slots, it.cur).cur > 0;
      forall k | 0 <= k < |ElementRest(t, i, it', es)| ensures ElementRest(t, i, it', es)[k].PadToken? {
        assert ElementRest(t, i, it', es)[k] == ElementRest(t, i, it, es)[k + 1];
      }
    }
  }

  lemma PadBefore(t: Template, d: seq<Field>, rest: seq<Token>, s: Inst, iters: seq<Counting>, p: int,
                  info: Info, s1: Inst, r: (seq<Counting>, int), s': Inst)
    requires Readable(t) && State(t, s, d, iters) && Rest(t, s, d) == rest && s.cur < p == Pending(t, s.cur) && rest != []
    requires (info, s1) == InstNext(t, s) && r == CounterIncr(Started(iters, s, s1), TokenSize(rest[0])) && s' == Fix(s1, r.1)
    ensures State(t, s', d, r.0) && Rest(t, s', d) == rest[1..] && info == PadInfo(TokenSize(rest[0]))
    ensures s'.cur <= p == Pending(t, s'.cur) && ListAt(s'.slots, p) == ListAt(s.slots, p)
  {
    PendingIsList(t, s.cur);
    PlainInfo(t, s, d, info, s1);
    PlainStep(t, s, d, iters, s1);
    var f := iters[0];
    assert iters == [f] && !f.counting;
    OneStarted(f, s, s1);
    assert [f][1..] == [] && CounterIncr([], TokenSize(rest[0])) == ([], -1) && [f] + [] == [f];
    assert r == (iters, -1);
    RestNotBegun(t, s', d, iters);
  }

  lemma PadOn(t: Template, d: seq<Field>, rest: seq<Token>, s: Inst, iters: seq<Counting>, p: int, n: int,
              info: Info, s1: Inst, r: (seq<Counting>, int), s': Inst)
    requires Standing(t, d, rest, s, iters) && Between(t, d, s, p, n) && rest != [] && rest[0].PadToken?
    requires forall m :: Asked(m, s) ==> Unfinished(t, d, s, p) && (s.cur == p ==> ListSized(t, p + 1, ListAt(s.slots, p)))
    requires (info, s1) == InstNext(t, s) && r == CounterIncr(Started(iters, s, s1), TokenSize(rest[0])) && s' == Fix(s1, r.1)
    ensures Standing(t, d, rest[1..], s', r.0) && Between(t, d, s', p, n) && info == PadInfo(TokenSize(rest[0]))
  {
    assert Asked(0, (s, iters)) && Asked(0, s);
    PendingIsList(t, s.cur);
    if s.cur == p {
      var it, es := ListAt(s.slots, p), ElemsOf(FieldAt(d, p));
      PadInList(t, d, rest, s, iters, p, n, it, es, info, s1, LoopNext(t, p + 1, it).1, r, s');
    } else {
      PadBefore(t, d, rest, s, iters, p, info, s1, r, s');
    }
  }

  lemma PadReported(info: Info, k: Token)
    requires Reports(info, k) && k.PadToken?
    ensures info == PadInfo(TokenSize(k))
  {
  }

  lemma PadInList(t: Template, d: seq<Field>, rest: seq<Token>, s: Inst, iters: seq<Counting>, p: int, n: int, it: Loop, es: seq<Field>,
                  info: Info, s1: Inst, it1: Loop, r: (seq<Counting>, int), s': Inst)
    requires Readable(t) && State(t, s, d, iters) && Rest(t, s, d) == rest && p == s.cur && 0 <= p < |t| && t[p].Iter?
    requires it == ListAt(s.slots, p) && es == ElemsOf(FieldAt(d, p)) && Resting(t, p + 1, it, es, n)
    requires 0 <= it.cur < |es| && ElementRest(t, p + 1, it, es) != [] && ListSized(t, p + 1, it)
    requires rest != [] && rest[0].PadToken? && (info, s1) == InstNext(t, s) && it1 == LoopNext(t, p + 1, it).1
    requires r == CounterIncr(Started(iters, s, s1), TokenSize(rest[0])) && s' == Fix(s1, r.1)
    ensures State(t, s', d, r.0) && Rest(t, s', d) == rest[1..] && info == PadInfo(TokenSize(rest[0])) && s'.cur == p
    ensures Pending(t, p) == p && Resting(t, p + 1, ListAt(s'.slots, p), es, n)
  {
    var it2 := ListAt(s'.slots, p);
    ListToken(t, s, d, iters, p, it, es, info, s1, it1, TokenSize(rest[0]), r, s');
    PadReported(info, rest[0]);
    ReadingHere(t, s, d, iters, p, it, es);
    RestingPad(t, p + 1, it, it1, it2, es, n);
  }

  lemma {:induction false} ReadingHere(t: Template, s: Inst, d: seq<Field>, iters: seq<Counting>, p: int, it: Loop, es: seq<Field>)
    requires Readable(t) && State(t, s, d, iters) && p == s.cur && 0 <= p < |t| && t[p].Iter?
    requires it == ListAt(s.slots, p) && es == ElemsOf(FieldAt(d, p))
    ensures RepeatsOk(t, p + 1) && ListReading(t, p + 1, it, es) && Pending(t, p) == p
  {
    ListHere(t, s, d, iters, p);
  }

  /** What is left of document d before the last n elements of the list at record p. */
  function FromElement(t: Template, d: seq<Field>, p: int, n: int): seq<Token>
    requires 0 <= p
  {
    var es := ElemsOf(FieldAt(d, p));
    (if 0 <= n <= |es| then ElemsTokens(t, p + 1, es[|es| - n..]) else []) + TokensFrom(t, d, Increment(t, p))
  }

  lemma RestAtElement(t: Template, d: seq<Field>, rest: seq<Token>, s: Inst, iters: seq<Counting>, p: int, k: int)
    requires Standing(t, d, rest, s, iters) && AtElement(t, s, p, k) && 0 <= k < |ElemsOf(FieldAt(d, p))|
    ensures rest == FromElement(t, d, p, |ElemsOf(FieldAt(d, p))| - k)
  {
    assert Asked(0, (s, iters));
    ListHere(t, s, d, iters, p);
    RestOfFresh(t, p + 1, ListAt(s.slots, p), ElemsOf(FieldAt(d, p)));
    FromElementIs(t, d, p, k);
  }

  lemma FromElementIs(t: Template, d: seq<Field>, p: int, k: int)
    requires 0 <= p && 0 <= k < |ElemsOf(FieldAt(d, p))|
    ensures FromElement(t, d, p, |ElemsOf(FieldAt(d, p))| - k) ==
      ElemsTokens(t, p + 1, ElemsOf(FieldAt(d, p))[k..]) + TokensFrom(t, d, Increment(t, p))
  {
  }

  lemma RestOfFresh(t: Template, i: int, it: Loop, es: seq<Field>)
    requires RepeatsOk(t, i) && 0 <= it.cur < |es| && (Points(t, i) ==> SubAt(it.slots, it.cur) == FreshInst())
    ensures LoopRest(t, i, it, es) == ElemsTokens(t, i, es[it.cur..])
  {
    FreshRest(t, i, it, es);
    assert es[it.cur..][0] == es[it.cur] && es[it.cur..][1..] == es[it.cur + 1..];
  }

  lemma RestPastList(t: Template, d: seq<Field>, rest: seq<Token>, s: Inst, iters: seq<Counting>, p: int)
    requires Standing(t, d, rest, s, iters) && 0 <= p < |t| && t[p].Iter? && s.cur == Increment(t, p) && FrameFresh(t, s)
    ensures rest == TokensFrom(t, d, s.cur)
  {
    assert Asked(0, (s, iters));
    BehindList(t, p);
    RestNotBegun(t, s, d, iters);
  }

  class FrameReader {
    const t: Template
    const big: bool
    const area: seq<Byte>
    var fi: Inst
    var idx: nat
    var iters: seq<Counting>

    constructor (t: Template, big: bool, area: seq<Byte>)
      ensures this.t == t && this.big == big && this.area == area && fi == FreshInst() && idx == 0 && iters == []
    {
      this.t, this.big, this.area, this.fi, this.idx, this.iters := t, big, area, FreshInst(), 0, [];
    }

    /** The buffer holds, from the cursor on, the tokens `rest` that are left of document d. */
    ghost predicate Reads(d: seq<Field>, rest: seq<Token>)
      reads this
    {
      Standing(t, d, rest, fi, iters) && TokensOk(rest) && Holds(big, area, idx, rest)
    }

    /** _FrameIterCounterIncr with what its callers do about a counter that has run out. */
    method Count(n: int)
      modifies this`fi, this`iters
      ensures var r := CounterIncr(old(iters), n); iters == r.0 && fi == Fix(old(fi), r.1)
    {
      var r := CounterIncr(iters, n);
      iters, fi := r.0, Fix(fi, r.1);
    }

    /** The cursor has just moved on from s, and the token it reported is in the buffer. */
    ghost predicate Moved(d: seq<Field>, rest: seq<Token>, s: Inst, iters0: seq<Counting>, info: Info)
      reads this
    {
      && Standing(t, d, rest, s, iters0) && Due(t, d, s)
      && (info, fi) == InstNext(t, s) && iters == Started(iters0, s, fi)
      && rest != [] && TokensOk(rest) && Holds(big, area, idx, rest)
    }

    /** A counter: its list is watched from its first token on, to the length read here. */
    method TakeCounter(info: Info, ghost d: seq<Field>, ghost rest: seq<Token>, ghost s: Inst, ghost iters0: seq<Counting>)
      returns (x: Datum)
      requires Moved(d, rest, s, iters0, info) && info.CounterInfo?
      requires rest[0].CountToken? && rest[0].w == info.w && 0 <= rest[0].v < Limit(info.w)
      modifies this
      ensures x == Seen(rest[0]) && Reads(d, rest[1..]) && Moves(t, Settled(t, s), fi, 1)
    {
      HoldsFirst(big, area, idx, rest);
      SmallMod(rest[0].v, Limit(info.w));
      var end := BytesNum(big, area[idx..idx + info.w]);
      assert end == rest[0].v;
      CounterOn(t, d, rest, s, iters0, info, fi, Watch(fi, info.at), iters + [Counting(info.at, false, 0, end)]);
      iters := iters + [Counting(info.at, false, 0, end)];
      fi := Watch(fi, info.at);
      idx := idx + info.w;
      Count(info.w);
      x := Datum(end, []);
    }

    /** A padding. */
    method SkipPad(info: Info, ghost d: seq<Field>, ghost rest: seq<Token>, ghost s: Inst, ghost iters0: seq<Counting>)
      requires Moved(d, rest, s, iters0, info) && info == PadInfo(TokenSize(rest[0])) && rest[0].PadToken?
      modifies this
      ensures Reads(d, rest[1..]) && Due(t, d, fi) && Moves(t, Settled(t, s), fi, 1) && SamePlace(t, Settled(t, s), fi)
    {
      HoldsFirst(big, area, idx, rest);
      ghost var r := CounterIncr(iters, info.num);
      TokenOn(t, d, rest, s, iters0, info, fi, r, Fix(fi, r.1));
      idx := idx + info.num;
      Count(info.num);
    }

    /** A number. */
    method TakeNumber(info: Info, ghost d: seq<Field>, ghost rest: seq<Token>, ghost s: Inst, ghost iters0: seq<Counting>)
      returns (x: Datum)
      requires Moved(d, rest, s, iters0, info) && info == BitsInfo(TokenSize(rest[0])) && rest[0].BitsToken?
      modifies this
      ensures x == Seen(rest[0]) && Reads(d, rest[1..]) && Moves(t, Settled(t, s), fi, 1)
    {
      HoldsFirst(big, area, idx, rest);
      ghost var r := CounterIncr(iters, info.w);
      TokenOn(t, d, rest, s, iters0, info, fi, r, Fix(fi, r.1));
      x := Datum(BytesNum(big, area[idx..idx + info.w]), []);
      idx := idx + info.w;
      Count(info.w);
    }

    /** A byte string: its size must have been given; an empty one has no place in the buffer. */
    method TakeBytes(info: Info, ghost d: seq<Field>, ghost rest: seq<Token>, ghost s: Inst, ghost iters0: seq<Counting>)
      returns (st: Status, x: Datum)
      requires Moved(d, rest, s, iters0, info) && info == BarrayInfo(TokenSize(rest[0])) && rest[0].BytesToken?
      modifies this
      ensures st == Success && x == Seen(rest[0]) && Reads(d, rest[1..]) && Moves(t, Settled(t, s), fi, 1)
    {
      HoldsFirst(big, area, idx, rest);
      ghost var r := CounterIncr(iters, info.num);
      TokenOn(t, d, rest, s, iters0, info, fi, r, Fix(fi, r.1));
      if info.num == NO_VALUE {
        return InvalidCall, Datum(0, []);
      }
      st, x := Success, Datum(0, []);
      if info.num > 0 {
        x := Datum(0, area[idx..idx + info.num]);
        idx := idx + info.num;
        Count(info.num);
      }
    }

    /** _FrameMgrGetToken: paddings before the datum are read over; a counter opens its list. */
    method GetToken(ghost d: seq<Field>, ghost rest: seq<Token>) returns (st: Status, x: Datum)
      requires Reads(d, rest) && Due(t, d, fi)
      modifies this
      ensures NonPads(rest) && st == Success && x == Seen(NextToken(rest))
      ensures Reads(d, AfterNext(rest)) && Moves(t, Settled(t, old(fi)), fi, 1 + Lead(rest))
      decreases |rest|
    {
      ghost var s, iters0 := fi, iters;
      var (info, fi1) := InstNext(t, fi);
      Glance(t, d, rest, fi, iters, info, fi1);
      iters := Started(iters, fi, fi1);
      fi := fi1;
      match info {
        case CounterInfo(_, _, _) =>
          x := TakeCounter(info, d, rest, s, iters0);
          st := Success;
        case PadInfo(_) =>
          SkipPad(info, d, rest, s, iters0);
          ghost var s1 := fi;
          st, x := GetToken(d, rest[1..]);
          MovesOn(t, Settled(t, s), s1, fi, 1 + Lead(rest[1..]));
        case BitsInfo(_) =>
          x := TakeNumber(info, d, rest, s, iters0);
          st := Success;
        case BarrayInfo(_) =>
          st, x := TakeBytes(info, d, rest, s, iters0);
        case End => return Eod, Datum(0, []);
        case Stuck => return Bug, Datum(0, []);
      }
    }

    /** FrameMgrSetSize. */
    method SetSize(num: int) returns (ok: bool)
      modifies this`fi
      ensures (ok, fi) == InstSetSize(t, old(fi), num, 0)
    {
      var r := InstSetSize(t, fi, num, 0);
      ok, fi := r.0, r.1;
    }

    /** _FrameMgrProcessPadding, once the padding has been seen. */
    method SkipListPad(ghost d: seq<Field>, ghost rest: seq<Token>, ghost p: int, ghost n: int)
      requires Reads(d, rest) && Between(t, d, fi, p, n) && rest != [] && rest[0].PadToken?
      requires forall m :: Asked(m, fi) ==> Unfinished(t, d, fi, p) && (fi.cur == p ==> ListSized(t, p + 1, ListAt(fi.slots, p)))
      modifies this
      ensures Reads(d, rest[1..]) && Between(t, d, fi, p, n)
    {
      ghost var s, iters0 := fi, iters;
      var (info, fi1) := InstNext(t, fi);
      iters := Started(iters, fi, fi1);
      fi := fi1;
      ghost var r := CounterIncr(iters, TokenSize(rest[0]));
      HoldsFirst(big, area, idx, rest);
      PadOn(t, d, rest, s, iters0, p, n, info, fi1, r, Fix(fi1, r.1));
      idx := idx + info.num;
      Count(info.num);
    }

    /** FrameMgrIsIterLoopEnd: the paddings of the element read last, and those before the
        list, are read over until the list ends or its next element is in sight. */
    method IsIterLoopEnd(ghost d: seq<Field>, ghost rest: seq<Token>, ghost p: int, ghost n: int) returns (end: bool)
      requires Reads(d, rest) && Between(t, d, fi, p, n)
      modifies this
      ensures 0 <= p < |t| && end == (n == 0)
      ensures end ==> fi.cur == Increment(t, p) && FrameFresh(t, fi)
      ensures !end ==> AtElement(t, fi, p, |ElemsOf(FieldAt(d, p))| - n)
      ensures end ==> Reads(d, TokensFrom(t, d, Increment(t, p)))
      ensures !end ==> Reads(d, FromElement(t, d, p, n))
      decreases |rest|
    {
      var (done, fi1) := InstLoopEnd(t, fi);
      TestOn(t, d, rest, fi, iters, p, n, (done, fi1));
      fi := fi1;
      if done {
        RestPastList(t, d, rest, fi, iters, p);
        return true;
      }
      var (info, fi2) := InstPeek(t, fi);
      PeekOn(t, d, rest, fi, iters, p, n, (info, fi2));
      fi := fi2;
      if !info.PadInfo? {
        RestAtElement(t, d, rest, fi, iters, p, |ElemsOf(FieldAt(d, p))| - n);
        return false;
      }
      SkipListPad(d, rest, p, n);
      end := IsIterLoopEnd(d, rest[1..], p, n);
    }
  }
}
