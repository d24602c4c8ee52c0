/** Reading the elements of a list: numbers, or flat frames read token by token. */
module FrameElement {
  import opened FrameTemplate
  import opened FrameCursor
  import opened FrameTokens
  import opened FrameWalk
  import opened FrameSetup
  import opened FrameRequests
  import opened FrameEncode
  import opened FrameLoopEnd

  /** A flat frame that starts with a number and has a number before each byte string. */
  predicate ElementOk(u: Template) {
    Flat(u) && |u| > 1 && u[0].Bits? && forall i :: 0 < i < |u| && u[i].Barray? ==> u[i - 1].Bits?
  }

  /** Read up to record cur: the sizes before are known, none after; the size of the byte
      string at cur may have been given. */
  ghost predicate Reading(u: Template, fi: Inst, f: seq<Field>) {
    && 0 <= fi.cur < |u| && FilledTo(u, fi, f, fi.cur)
    && (forall j :: fi.cur < j < |u| ==> SizeAt(fi.slots, j) == NO_VALUE)
    && (u[fi.cur].Barray? ==> SizeSets(SizeAt(fi.slots, fi.cur), FieldAt(f, fi.cur)))
  }

  /** A byte string that is next has been given its size. */
  ghost predicate Sized(u: Template, fi: Inst) {
    0 <= fi.cur < |u| && (u[fi.cur].Barray? ==> SizeAt(fi.slots, fi.cur) != NO_VALUE)
  }

  lemma FlatBoundary(u: Template, i: int)
    requires Flat(u) && 0 <= i < |u|
    ensures Boundary(u, i)
  {
    assert i > 0 ==> RecordOk(u, i - 1);
    assert i < |u| - 1 ==> RecordOk(u, i);
  }

  predicate Simple(t: Template, i: int) {
    0 <= i < |t| && (t[i].Bits? || t[i].Barray? || t[i].Padding? || t[i].Counter?)
  }

  /** The one token of a record that is no list and no inner frame. */
  function TokenAt(t: Template, d: seq<Field>, i: int): Token
    requires Simple(t, i)
  {
    match t[i]
    case Bits(w) => BitsToken(w, NumOf(FieldAt(d, i)))
    case Barray => BytesToken(BytesOf(FieldAt(d, i)))
    case Padding(unit, n) => PadToken(PadLen(unit, BackSize(t, d, i, n)))
    case Counter(w, _, _) => CountToken(w, CountOf(t, d, i))
  }

  lemma SimpleTokens(t: Template, d: seq<Field>, i: int)
    requires Simple(t, i)
    ensures TokensFrom(t, d, i) == [TokenAt(t, d, i)] + TokensFrom(t, d, i + 1)
    ensures TokensFrom(t, d, i) != [] && TokensFrom(t, d, i)[0] == TokenAt(t, d, i) && TokensFrom(t, d, i)[1..] == TokensFrom(t, d, i + 1)
  {
    assert Increment(t, i) == i + 1;
    assert ItemTokens(t, d, i) == [TokenAt(t, d, i)];
  }

  /** What the cursor reports at such a record, all that comes before it being known. */
  lemma SimpleNext(t: Template, s: Inst, d: seq<Field>, i: int)
    requires CodecOk(t) && i == s.cur && Boundary(t, i) && Simple(t, i) && !t[i].Counter? && FilledTo(t, s, d, i)
    requires t[i].Barray? ==> SizeAt(s.slots, i) == |BytesOf(FieldAt(d, i))|
    ensures InstNext(t, s).1 == s.(cur := i + 1) && Reports(InstNext(t, s).0, TokenAt(t, d, i))
  {
    if t[i].Padding? {
      BackTotalIs(t, s, d, i, t[i].number);
    }
  }

  lemma FlatSimple(u: Template, i: int)
    requires Flat(u) && 0 <= i < |u| - 1
    ensures Simple(u, i) && !u[i].Counter?
  {
    assert u[i].Bits? || u[i].Barray? || u[i].Padding?;
  }

  lemma FlatRest(u: Template, fi: Inst, f: seq<Field>)
    requires Flat(u) && 0 <= fi.cur < |u|
    ensures Rest(u, fi, f) == TokensFrom(u, f, fi.cur) && (Rest(u, fi, f) == [] <==> fi.cur == |u| - 1)
  {
    if fi.cur < |u| - 1 {
      FlatSimple(u, fi.cur);
      SimpleTokens(u, f, fi.cur);
    }
  }

  /** The cursor reports the next token of the element. */
  lemma ElementNext(u: Template, fi: Inst, f: seq<Field>, info: Info, fi': Inst)
    requires Flat(u) && Reading(u, fi, f) && Sized(u, fi) && fi.cur < |u| - 1 && (info, fi') == InstNext(u, fi)
    ensures Reading(u, fi', f) && fi' == fi.(cur := fi.cur + 1)
    ensures Rest(u, fi, f) != [] && Reports(info, Rest(u, fi, f)[0]) && Rest(u, fi', f) == Rest(u, fi, f)[1..]
  {
    var i := fi.cur;
    FlatBoundary(u, i);
    FlatSimple(u, i);
    SimpleNext(u, fi, f, i);
    SimpleTokens(u, f, i);
    FlatRest(u, fi, f);
    FlatRest(u, fi', f);
    forall j | 0 <= j < i + 1 && Boundary(u, j) && j < |u| - 1 ensures ItemFilled(u, fi'.slots, f, j) {
      assert j < i ==> ItemFilled(u, fi.slots, f, j);
    }
  }

  /** FrameMgrSetSize finds the byte string that is next. */
  lemma {:induction false} ElementSetSize(u: Template, fi: Inst, f: seq<Field>, num: nat, i: int)
    requires Flat(u) && Reading(u, fi, f) && 0 <= i <= fi.cur && u[fi.cur].Barray? && !Sized(u, fi)
    ensures InstSetSize(u, fi, num, i) == (true, fi.(slots := fi.slots[fi.cur := Size(num)]))
    decreases fi.cur - i
  {
    FlatBoundary(u, i);
    if i < fi.cur {
      assert ItemFilled(u, fi.slots, f, i);
      ElementSetSize(u, fi, f, num, i + 1);
    }
  }

  lemma ElementSized(u: Template, fi: Inst, f: seq<Field>, fi': Inst)
    requires Flat(u) && Reading(u, fi, f) && u[fi.cur].Barray?
    requires fi' == fi.(slots := fi.slots[fi.cur := Size(|BytesOf(FieldAt(f, fi.cur))|)])
    ensures Sized(u, fi')
    ensures Rest(u, fi', f) == Rest(u, fi, f)
    ensures Reading(u, fi', f)
  {
    forall j | 0 <= j < fi.cur && Boundary(u, j) && j < |u| - 1 ensures ItemFilled(u, fi'.slots, f, j) {
      assert ItemFilled(u, fi.slots, f, j);
      assert u[j].Bits? || u[j].Barray? || u[j].Padding?;
    }
    forall j | fi.cur < j < |u| ensures SizeAt(fi'.slots, j) == NO_VALUE {
      assert SizeAt(fi.slots, j) == NO_VALUE;
    }
  }

  /** And does nothing to an element that has been read. */
  lemma {:induction false} ElementFull(u: Template, fi: Inst, f: seq<Field>, num: nat, i: int)
    requires Flat(u) && Filled(u, fi, f) && 0 <= i < |u|
    ensures InstSetSize(u, fi, num, i) == (false, fi)
    decreases |u| - i
  {
    FlatBoundary(u, i);
    if i < |u| - 1 {
      assert ItemFilled(u, fi.slots, f, i);
      ElementFull(u, fi, f, num, i + 1);
    }
  }

  /** A new element: nothing is known, everything is left. */
  lemma ElementFresh(u: Template, f: seq<Field>)
    requires ElementOk(u)
    ensures Reading(u, FreshInst(), f) && Sized(u, FreshInst()) && Rest(u, FreshInst(), f) == TokensFrom(u, f, 0)
    ensures Rest(u, FreshInst(), f) != [] && Rest(u, FreshInst(), f)[0].BitsToken?
  {
    FlatBoundary(u, 0);
    FlatRest(u, FreshInst(), f);
    SimpleTokens(u, f, 0);
  }

  // A list in the course of being read.

  /** The elements the decoder handles: numbers, or frames as above. */
  predicate RepeatsOk(t: Template, i: int) {
    CodecOk(t) && 0 <= i < |t| - 1 && (t[i].Bits? || (Points(t, i) && ElementOk(t[i + 1].sub)))
  }

  ghost predicate ElementDone(t: Template, i: int, slots: map<int, Slot>, k: int, f: Field) {
    ElemFilled(t, i, slots, k, f) && (Points(t, i) ==> k in slots && slots[k].Sub?)
  }

  /** Elements before `cur` have been read, the one at `cur` is being read, and none after
      it has been met.  `max` counts those that have reported a token. */
  ghost predicate ListReading(t: Template, i: int, it: Loop, es: seq<Field>) {
    && 0 <= it.cur <= |es|
    && (forall k :: 0 <= k < it.cur ==> ElementDone(t, i, it.slots, k, es[k]))
    && (forall k :: k > it.cur ==> SubAt(it.slots, k) == FreshInst())
    && (if Points(t, i) && it.cur < |es| && SubAt(it.slots, it.cur) != FreshInst() then
          it.max == it.cur + 1 && it.cur in it.slots && it.slots[it.cur].Sub?
          && Reading(t[i + 1].sub, SubAt(it.slots, it.cur), FieldsOf(es[it.cur]))
        else it.max == it.cur && (Points(t, i) ==> SubAt(it.slots, it.cur) == FreshInst()))
  }

  /** The tokens left of the element at the cursor. */
  function ElementRest(t: Template, i: int, it: Loop, es: seq<Field>): seq<Token>
    requires 0 <= it.cur < |es|
  {
    if Points(t, i) then Rest(t[i + 1].sub, SubAt(it.slots, it.cur), FieldsOf(es[it.cur])) else ElemTokens(t, i, es[it.cur])
  }

  ghost predicate ListSized(t: Template, i: int, it: Loop) {
    Points(t, i) ==> Sized(t[i + 1].sub, SubAt(it.slots, it.cur))
  }

  /** A number is an element by itself; a frame keeps the cursor until it is left. */
  ghost predicate ElementAfter(t: Template, i: int, it: Loop, es: seq<Field>, it': Loop)
    requires 0 <= it.cur < |es|
  {
    if Points(t, i) then
      && it'.cur == it.cur && SubAt(it'.slots, it.cur).cur == SubAt(it.slots, it.cur).cur + 1
      && SizeAt(SubAt(it'.slots, it.cur).slots, SubAt(it'.slots, it.cur).cur) == NO_VALUE
      && ElementRest(t, i, it, es) != [] && ElementRest(t, i, it', es) == ElementRest(t, i, it, es)[1..]
    else it'.cur == it.cur + 1
  }

  /** One step inside an element. */
  lemma ListNext(t: Template, i: int, it: Loop, es: seq<Field>, info: Info, it': Loop)
    requires RepeatsOk(t, i) && ListReading(t, i, it, es) && it.cur < |es| && Closes(t, i, it, es)
    requires ElementRest(t, i, it, es) != [] && ListSized(t, i, it)
    requires (info, it') == LoopNext(t, i, it)
    ensures ListReading(t, i, it', es) && it'.exp == it.exp && !it'.start && ElementAfter(t, i, it, es, it')
    ensures Reports(info, LoopRest(t, i, it, es)[0]) && LoopRest(t, i, it', es) == LoopRest(t, i, it, es)[1..]
    ensures info.PadInfo? ==> ListSized(t, i, it')
  {
    MayGrow(t, i, it, es);
    if Points(t, i) {
      FrameElementNext(t, i, it, es, info, it');
    } else {
      NumberNext(t, i, it, es, info, it');
    }
  }

  lemma NumberNext(t: Template, i: int, it: Loop, es: seq<Field>, info: Info, it': Loop)
    requires RepeatsOk(t, i) && t[i].Bits? && ListReading(t, i, it, es) && it.cur < |es| && it.exp
    requires (info, it') == LoopNext(t, i, it)
    ensures ListReading(t, i, it', es) && it'.exp == it.exp && !it'.start && ElementAfter(t, i, it, es, it')
    ensures Reports(info, LoopRest(t, i, it, es)[0]) && LoopRest(t, i, it', es) == LoopRest(t, i, it, es)[1..]
  {
    forall k | 0 <= k < it'.cur ensures ElementDone(t, i, it'.slots, k, es[k]) {
    }
    LoopRestRewound(t, i, it', es);
    assert it'.cur == |es| ==> es[it.cur + 1..] == [];
  }

  /** The instance of the current element replaced by one further on. */
  lemma ElementMoved(t: Template, i: int, it: Loop, es: seq<Field>, fi: Inst, it': Loop)
    requires Points(t, i) && ListReading(t, i, it, es) && it.cur < |es|
    requires Reading(t[i + 1].sub, fi, FieldsOf(es[it.cur])) && fi != FreshInst()
    requires it'.cur == it.cur && it'.max == it.cur + 1 && it'.slots == it.slots[it.cur := Sub(fi)]
    ensures ListReading(t, i, it', es)
  {
    forall k | 0 <= k < it'.cur ensures ElementDone(t, i, it'.slots, k, es[k]) {
      assert ElementDone(t, i, it.slots, k, es[k]);
    }
    forall k | k > it'.cur ensures SubAt(it'.slots, k) == FreshInst() {
      assert SubAt(it.slots, k) == FreshInst();
    }
  }

  lemma NextOfElement(t: Template, i: int, it: Loop, info: Info, fi: Inst)
    requires Points(t, i) && (info, fi) == InstNext(t[i + 1].sub, SubAt(it.slots, it.cur)) && !info.End?
    requires it.max == it.cur + 1 || (it.max == it.cur && it.exp)
    ensures LoopNext(t, i, it) == (info, Loop(it.cur + 1, it.exp, it.cur, it.slots[it.cur := Sub(fi)], false))
  {
  }

  lemma {:induction false} FrameElementNext(t: Template, i: int, it: Loop, es: seq<Field>, info: Info, it': Loop)
    requires RepeatsOk(t, i) && Points(t, i) && ListReading(t, i, it, es) && it.cur < |es| && (it.max == it.cur ==> it.exp)
    requires ElementRest(t, i, it, es) != [] && ListSized(t, i, it)
    requires (info, it') == LoopNext(t, i, it)
    ensures ListReading(t, i, it', es) && it'.exp == it.exp && !it'.start && ElementAfter(t, i, it, es, it')
    ensures Reports(info, LoopRest(t, i, it, es)[0]) && LoopRest(t, i, it', es) == LoopRest(t, i, it, es)[1..]
    ensures info.PadInfo? ==> ListSized(t, i, it')
  {
    var u, f := t[i + 1].sub, FieldsOf(es[it.cur]);
    var fi := SubAt(it.slots, it.cur);
    ElementFresh(u, f);
    FlatRest(u, fi, f);
    var (info1, fi1) := InstNext(u, fi);
    ElementNext(u, fi, f, info1, fi1);
    NextOfElement(t, i, it, info1, fi1);
    ElementMoved(t, i, it, es, fi1, it');
    ElementStepped(t, i, it, es, u, fi, f, fi1, it');
    LoopStepped(t, i, it, es, u, f, fi1, it');
  }

  lemma {:induction false} ElementStepped(t: Template, i: int, it: Loop, es: seq<Field>, u: Template, fi: Inst, f: seq<Field>, fi': Inst, it': Loop)
    requires Points(t, i) && u == t[i + 1].sub && 0 <= it.cur < |es| && fi == SubAt(it.slots, it.cur) && f == FieldsOf(es[it.cur])
    requires Reading(u, fi, f) && fi.cur < |u| - 1 && fi' == fi.(cur := fi.cur + 1) && it'.cur == it.cur && SubAt(it'.slots, it.cur) == fi'
    requires Rest(u, fi, f) != [] && Rest(u, fi', f) == Rest(u, fi, f)[1..]
    ensures ElementAfter(t, i, it, es, it')
  {
  }

  lemma {:induction false} LoopStepped(t: Template, i: int, it: Loop, es: seq<Field>, u: Template, f: seq<Field>, fi': Inst, it': Loop)
    requires Points(t, i) && u == t[i + 1].sub && 0 <= it.cur < |es| && f == FieldsOf(es[it.cur]) && it'.cur == it.cur
    requires SubAt(it'.slots, it.cur) == fi' && Rest(u, SubAt(it.slots, it.cur), f) != []
    requires Rest(u, fi', f) == Rest(u, SubAt(it.slots, it.cur), f)[1..]
    ensures LoopRest(t, i, it, es) != [] && LoopRest(t, i, it, es)[0] == Rest(u, SubAt(it.slots, it.cur), f)[0]
    ensures LoopRest(t, i, it', es) == LoopRest(t, i, it, es)[1..]
  {
    LoopRestIs(t, i, it, es, Rest(u, SubAt(it.slots, it.cur), f));
    LoopRestIs(t, i, it', es, Rest(u, fi', f));
    DropConcat(Rest(u, SubAt(it.slots, it.cur), f), ElemsTokens(t, i, es[it.cur + 1..]));
  }

  lemma LoopRestIs(t: Template, i: int, it: Loop, es: seq<Field>, inner: seq<Token>)
    requires Points(t, i) && 0 <= it.cur < |es| && inner == Rest(t[i + 1].sub, SubAt(it.slots, it.cur), FieldsOf(es[it.cur]))
    ensures LoopRest(t, i, it, es) == inner + ElemsTokens(t, i, es[it.cur + 1..])
  {
  }

  lemma {:induction false} ElementsPass(t: Template, i: int, it: Loop, es: seq<Field>, num: nat, k: int)
    requires RepeatsOk(t, i) && Points(t, i) && ListReading(t, i, it, es) && 0 <= k <= it.cur < |es| && it.max == it.cur + 1
    requires var u, fi := t[i + 1].sub, SubAt(it.slots, it.cur);
      Reading(u, fi, FieldsOf(es[it.cur])) && u[fi.cur].Barray? && !Sized(u, fi)
    ensures var fi := SubAt(it.slots, it.cur);
      ElemsSetSize(t, i, it.slots, k, it.max, num) == (true, it.slots[it.cur := Sub(fi.(slots := fi.slots[fi.cur := Size(num)]))])
    decreases it.cur - k
  {
    var u := t[i + 1].sub;
    if k < it.cur {
      assert ElementDone(t, i, it.slots, k, es[k]);
      ElementFull(u, SubAt(it.slots, k), FieldsOf(es[k]), num, 0);
      assert it.slots[k := Sub(SubAt(it.slots, k))] == it.slots;
      ElementsPass(t, i, it, es, num, k + 1);
    } else {
      ElementSetSize(u, SubAt(it.slots, k), FieldsOf(es[k]), num, 0);
    }
  }

  /** The size of the byte string that is next in the element being read. */
  lemma ListSetSize(t: Template, i: int, it: Loop, es: seq<Field>, num: nat, it': Loop)
    requires RepeatsOk(t, i) && Points(t, i) && ListReading(t, i, it, es) && it.cur < |es| && !ListSized(t, i, it)
    requires num == |BytesOf(FieldAt(FieldsOf(es[it.cur]), SubAt(it.slots, it.cur).cur))|
    requires it' == LoopSetSize(t, i, it, num).1
    ensures LoopSetSize(t, i, it, num).0
    ensures ListReading(t, i, it', es) && it' == it.(slots := it'.slots) && ListSized(t, i, it')
    ensures SubAt(it'.slots, it.cur).cur == SubAt(it.slots, it.cur).cur
    ensures Unread(t, i, it', es) == Unread(t, i, it, es)
    ensures LoopRest(t, i, it', es) == LoopRest(t, i, it, es) && ElementRest(t, i, it', es) == ElementRest(t, i, it, es)
  {
    var u, fi, f := t[i + 1].sub, SubAt(it.slots, it.cur), FieldsOf(es[it.cur]);
    ElementFresh(u, f);
    var fi1 := fi.(slots := fi.slots[fi.cur := Size(num)]);
    ElementsPass(t, i, it, es, num, 0);
    ElementSized(u, fi, f, fi1);
    assert fi1.cur > 0;
    ElementMoved(t, i, it, es, fi1, it');
    LoopRestIs(t, i, it, es, Rest(u, fi, f));
    LoopRestIs(t, i, it', es, Rest(u, fi1, f));
  }

  lemma {:induction false} ElementsFull(t: Template, i: int, it: Loop, es: seq<Field>, num: nat, k: int)
    requires RepeatsOk(t, i) && 0 <= k <= |es| == it.max
    requires forall j :: 0 <= j < |es| ==> ElementDone(t, i, it.slots, j, es[j])
    ensures ElemsSetSize(t, i, it.slots, k, it.max, num) == (false, it.slots)
    decreases |es| - k
  {
    if k < |es| {
      assert ElementDone(t, i, it.slots, k, es[k]);
      if Points(t, i) {
        ElementFull(t[i + 1].sub, SubAt(it.slots, k), FieldsOf(es[k]), num, 0);
        assert it.slots[k := Sub(SubAt(it.slots, k))] == it.slots;
      }
      ElementsFull(t, i, it, es, num, k + 1);
    }
  }

  /** A list that has been read takes no size. */
  lemma ListFull(t: Template, i: int, it: Loop, es: seq<Field>, num: nat)
    requires RepeatsOk(t, i) && !it.exp && it.max == |es|
    requires forall j :: 0 <= j < |es| ==> ElementDone(t, i, it.slots, j, es[j])
    ensures LoopSetSize(t, i, it, num) == (false, it)
  {
    if Points(t, i) {
      ElementsFull(t, i, it, es, num, 0);
    }
  }

  // The end test.

  /** The elements of which no token has been read. */
  function Unread(t: Template, i: int, it: Loop, es: seq<Field>): int {
    |es| - it.cur - (if Points(t, i) && it.cur < |es| && SubAt(it.slots, it.cur) != FreshInst() then 1 else 0)
  }

  predicate PadsOnly(ks: seq<Token>) {
    forall i :: 0 <= i < |ks| ==> ks[i].PadToken?
  }

  lemma FlatNoLoopEnd(u: Template, fi: Inst)
    requires Flat(u) && 0 <= fi.cur < |u|
    ensures InstLoopEnd(u, fi) == (false, fi)
  {
    assert fi.cur < |u| - 1 ==> u[fi.cur].Bits? || u[fi.cur].Barray? || u[fi.cur].Padding?;
  }

  /** Every element takes bytes. */
  lemma ElementTakesBytes(t: Template, i: int, f: Field, es: seq<Field>)
    requires RepeatsOk(t, i)
    ensures TokensSize(ElemTokens(t, i, f) + ElemsTokens(t, i, es)) > 0
    ensures ElemTokens(t, i, f) != [] && ElemTokens(t, i, f)[0].BitsToken?
  {
    var a, b := ElemTokens(t, i, f), ElemsTokens(t, i, es);
    assert RecordCodes(t, i);
    if Points(t, i) {
      ElementFresh(t[i + 1].sub, FieldsOf(f));
      assert RecordCodes(t[i + 1].sub, 0);
      SimpleTokens(t[i + 1].sub, FieldsOf(f), 0);
    }
    ElemTokensOk(t, i, f);
    ElemsTokensOk(t, i, es);
    assert TokensOk(a[1..]);
    SizeNat(a[1..]);
    SizeNat(b);
    TokensSizeConcat(a, b);
  }

  lemma FreshRest(t: Template, i: int, it: Loop, es: seq<Field>)
    requires RepeatsOk(t, i) && 0 <= it.cur < |es| && (Points(t, i) ==> SubAt(it.slots, it.cur) == FreshInst())
    ensures LoopRest(t, i, it, es) == ElemTokens(t, i, es[it.cur]) + ElemsTokens(t, i, es[it.cur + 1..])
    ensures TokensSize(LoopRest(t, i, it, es)) > 0
  {
    if Points(t, i) {
      ElementFresh(t[i + 1].sub, FieldsOf(es[it.cur]));
    }
    ElementTakesBytes(t, i, es[it.cur], es[it.cur + 1..]);
  }

  /** The list may grow just while bytes of it are left. */
  ghost predicate Closes(t: Template, i: int, it: Loop, es: seq<Field>) {
    it.exp <==> TokensSize(LoopRest(t, i, it, es)) > 0
  }

  lemma MayGrow(t: Template, i: int, it: Loop, es: seq<Field>)
    requires RepeatsOk(t, i) && ListReading(t, i, it, es) && it.cur < |es| && Closes(t, i, it, es)
    ensures it.max == it.cur ==> it.exp
  {
    if it.max == it.cur {
      FreshRest(t, i, it, es);
    }
  }

  lemma ElementLeft(t: Template, i: int, it: Loop, es: seq<Field>, it': Loop)
    requires RepeatsOk(t, i) && Points(t, i) && ListReading(t, i, it, es) && it.cur < |es| && it.max == it.cur + 1
    requires SubAt(it.slots, it.cur).cur == |t[i + 1].sub| - 1 && it' == it.(cur := it.cur + 1)
    ensures ListReading(t, i, it', es) && LoopRest(t, i, it', es) == LoopRest(t, i, it, es)
    ensures it'.cur < |es| ==> TokensSize(LoopRest(t, i, it', es)) > 0
  {
    var u, fi, f := t[i + 1].sub, SubAt(it.slots, it.cur), FieldsOf(es[it.cur]);
    FlatBoundary(u, |u| - 1);
    forall j | Boundary(u, j) && j < |u| - 1 ensures ItemFilled(u, fi.slots, f, j) {
    }
    forall k | 0 <= k < it'.cur ensures ElementDone(t, i, it'.slots, k, es[k]) {
      assert k < it.cur ==> ElementDone(t, i, it.slots, k, es[k]);
    }
    assert SubAt(it.slots, it.cur + 1) == FreshInst();
    LoopRestIs(t, i, it, es, []);
    if it'.cur < |es| {
      FreshRest(t, i, it', es);
      assert es[it.cur + 1..][0] == es[it'.cur] && es[it.cur + 1..][1..] == es[it'.cur + 1..];
    } else {
      assert es[it.cur + 1..] == [];
    }
  }

  /** What the test finds: the end, just if no token is left; and it steps past an element
      that has been read. */
  lemma ListTest(t: Template, i: int, it: Loop, es: seq<Field>, r: (bool, bool, Loop))
    requires RepeatsOk(t, i) && ListReading(t, i, it, es) && Closes(t, i, it, es) && r == LoopEnd(t, i, it)
    ensures r.0 == r.1 && (r.0 ==> LoopRest(t, i, it, es) == [] && r.2.cur == r.2.max == |es|)
    ensures ListReading(t, i, r.2, es) && LoopRest(t, i, r.2, es) == LoopRest(t, i, it, es)
    ensures r.2 == it.(cur := r.2.cur, slots := r.2.slots)
    ensures !r.0 ==> r.2.cur < |es| && ElementRest(t, i, r.2, es) != []
    ensures Unread(t, i, r.2, es) == Unread(t, i, it, es) && (r.0 ==> Unread(t, i, it, es) == 0)
    ensures r.2.cur >= it.cur && (r.2.cur == it.cur < |es| ==> ElementRest(t, i, r.2, es) == ElementRest(t, i, it, es))
  {
    var started := Points(t, i) && it.cur < |es| && SubAt(it.slots, it.cur) != FreshInst();
    if started {
      StartedTest(t, i, it, es, r);
    } else if it.cur < |es| {
      FreshRest(t, i, it, es);
      FreshTest(t, i, it, es, r);
    } else {
      assert LoopRest(t, i, it, es) == [];
    }
  }

  lemma FreshTest(t: Template, i: int, it: Loop, es: seq<Field>, r: (bool, bool, Loop))
    requires RepeatsOk(t, i) && ListReading(t, i, it, es) && it.exp && r == LoopEnd(t, i, it)
    requires it.cur < |es| && (Points(t, i) ==> SubAt(it.slots, it.cur) == FreshInst())
    ensures !r.0 && !r.1 && ListReading(t, i, r.2, es) && LoopRest(t, i, r.2, es) == LoopRest(t, i, it, es)
    ensures r.2 == it.(slots := r.2.slots) && ElementRest(t, i, r.2, es) == ElementRest(t, i, it, es) != []
  {
    ElementTakesBytes(t, i, es[it.cur], []);
    if Points(t, i) {
      var u := t[i + 1].sub;
      ElementFresh(u, FieldsOf(es[it.cur]));
      FlatNoLoopEnd(u, FreshInst());
      FreshAgain(t, i, it, es, r.2);
    }
  }

  /** An instance created for the next element changes nothing. */
  lemma FreshAgain(t: Template, i: int, it: Loop, es: seq<Field>, it': Loop)
    requires Points(t, i) && ListReading(t, i, it, es) && it.cur < |es| && SubAt(it.slots, it.cur) == FreshInst()
    requires it' == it || it' == it.(slots := it.slots[it.cur := Sub(FreshInst())])
    ensures ListReading(t, i, it', es) && LoopRest(t, i, it', es) == LoopRest(t, i, it, es)
    ensures SubAt(it'.slots, it.cur) == FreshInst()
  {
    forall k | 0 <= k < it.cur ensures ElementDone(t, i, it'.slots, k, es[k]) {
      assert ElementDone(t, i, it.slots, k, es[k]);
    }
    forall k | k > it.cur ensures SubAt(it'.slots, k) == FreshInst() {
      assert SubAt(it.slots, k) == FreshInst();
    }
  }

  lemma {:induction false} StartedTest(t: Template, i: int, it: Loop, es: seq<Field>, r: (bool, bool, Loop))
    requires RepeatsOk(t, i) && ListReading(t, i, it, es) && Closes(t, i, it, es) && r == LoopEnd(t, i, it)
    requires Points(t, i) && it.cur < |es| && SubAt(it.slots, it.cur) != FreshInst()
    ensures r.0 == r.1 && (r.0 ==> LoopRest(t, i, it, es) == [] && r.2.cur == r.2.max == |es|)
    ensures ListReading(t, i, r.2, es) && LoopRest(t, i, r.2, es) == LoopRest(t, i, it, es)
    ensures r.2 == it.(cur := r.2.cur, slots := r.2.slots)
    ensures !r.0 ==> r.2.cur < |es| && ElementRest(t, i, r.2, es) != []
    ensures Unread(t, i, r.2, es) == Unread(t, i, it, es) && (r.0 ==> Unread(t, i, it, es) == 0)
    ensures r.2.cur >= it.cur && (r.2.cur == it.cur < |es| ==> ElementRest(t, i, r.2, es) == ElementRest(t, i, it, es))
  {
    var u, fi := t[i + 1].sub, SubAt(it.slots, it.cur);
    StartedEnd(t, i, it, u, fi, r);
    if fi.cur == |u| - 1 {
      StartedOver(t, i, it, es, u, r.2);
    } else {
      FlatRest(u, fi, FieldsOf(es[it.cur]));
    }
  }

  /** The end test at an element that has been begun: it leaves it at its end. */
  lemma {:induction false} StartedEnd(t: Template, i: int, it: Loop, u: Template, fi: Inst, r: (bool, bool, Loop))
    requires Points(t, i) && u == t[i + 1].sub && Flat(u) && it.cur in it.slots && it.slots[it.cur] == Sub(fi) && 0 <= fi.cur < |u|
    requires it.max == it.cur + 1 && r == LoopEnd(t, i, it)
    ensures fi.cur == |u| - 1 ==> r.2 == it.(cur := it.cur + 1) && r.0 == r.1 == !it.exp
    ensures fi.cur < |u| - 1 ==> r == (false, false, it)
  {
    FlatNoLoopEnd(u, fi);
    assert it.slots[it.cur := Sub(fi)] == it.slots;
  }

  lemma {:induction false} StartedOver(t: Template, i: int, it: Loop, es: seq<Field>, u: Template, it': Loop)
    requires RepeatsOk(t, i) && ListReading(t, i, it, es) && Closes(t, i, it, es) && Points(t, i) && u == t[i + 1].sub
    requires it.cur < |es| && it.max == it.cur + 1 && SubAt(it.slots, it.cur).cur == |u| - 1 && SubAt(it.slots, it.cur) != FreshInst()
    requires it' == it.(cur := it.cur + 1)
    ensures ListReading(t, i, it', es) && LoopRest(t, i, it', es) == LoopRest(t, i, it, es)
    ensures !it.exp <==> it'.cur == |es|
    ensures if it'.cur == |es| then LoopRest(t, i, it, es) == [] else ElementRest(t, i, it', es) != []
    ensures Unread(t, i, it', es) == Unread(t, i, it, es) && (it'.cur == |es| ==> Unread(t, i, it, es) == 0)
  {
    ElementLeft(t, i, it, es, it');
    if it'.cur == |es| {
      assert LoopRest(t, i, it', es) == [];
    } else {
      ElementFresh(u, FieldsOf(es[it'.cur]));
      assert SubAt(it.slots, it'.cur) == FreshInst();
    }
  }

  /** A look at the next token of the list. */
  lemma ListPeek(t: Template, i: int, it: Loop, es: seq<Field>, r: (Info, Loop))
    requires RepeatsOk(t, i) && ListReading(t, i, it, es) && it.cur < |es| && ElementRest(t, i, it, es) != []
    requires Closes(t, i, it, es) && r == LoopPeek(t, i, it)
    ensures !r.0.End? && (r.0.PadInfo? <==> ElementRest(t, i, it, es)[0].PadToken?)
    ensures r.0.PadInfo? ==> r.0.num == TokenSize(ElementRest(t, i, it, es)[0]) && ListSized(t, i, r.1)
    ensures ListReading(t, i, r.1, es) && r.1 == it.(slots := r.1.slots) && Unread(t, i, r.1, es) == Unread(t, i, it, es)
    ensures LoopRest(t, i, r.1, es) == LoopRest(t, i, it, es) && ElementRest(t, i, r.1, es) == ElementRest(t, i, it, es)
  {
    MayGrow(t, i, it, es);
    if Points(t, i) {
      var u, fi, f := t[i + 1].sub, SubAt(it.slots, it.cur), FieldsOf(es[it.cur]);
      if fi == FreshInst() {
        ElementFresh(u, f);
        FreshAgain(t, i, it, es, r.1);
      } else {
        assert it.slots[it.cur := Sub(fi)] == it.slots;
      }
      ElementPeek(u, fi, f, r.0);
    }
  }

  lemma ElementPeek(u: Template, fi: Inst, f: seq<Field>, info: Info)
    requires Flat(u) && Reading(u, fi, f) && Rest(u, fi, f) != [] && info == InstPeek(u, fi).0
    ensures InstPeek(u, fi).1 == fi && !info.End? && (info.PadInfo? <==> Rest(u, fi, f)[0].PadToken?)
    ensures info.PadInfo? ==> info.num == TokenSize(Rest(u, fi, f)[0]) && u[fi.cur].Padding?
  {
    var i := fi.cur;
    FlatRest(u, fi, f);
    FlatBoundary(u, i);
    FlatSimple(u, i);
    SimpleTokens(u, f, i);
    if u[i].Padding? {
      BackTotalIs(u, fi, f, i, u[i].number);
    }
  }
}
