/**
 * The input contexts of the XIM server and their lists (src/xim_IC.c). Records live in a store and are never returned to it;
 * a pointer is the place of its record, and NULL is -1.
 */
module IcRegistry {

  import opened Sealed
  import opened LinkedStore

  /** An input context: its id, its client, its IM context, the windows and times that decide how long it stays, and whether
      it is marked in focus. */
  datatype Ic = Ic(id: nat, connectId: nat, imc: int, next: int, focusWin: int, clientWin: int, execTime: int, focus: bool)

  /** An IM context: its id, the context it is attached to, and its neighbours. */
  datatype Imc = Imc(id: nat, icid: nat, next: int, prev: int)

  function IcNexts(ics: seq<Ic>): (r: seq<int>)
    ensures |r| == |ics| && forall i :: 0 <= i < |r| ==> r[i] == ics[i].next
  {
    seq(|ics|, i requires 0 <= i < |ics| => ics[i].next)
  }

  function ImcNexts(imcs: seq<Imc>): (r: seq<int>)
    ensures |r| == |imcs| && forall i :: 0 <= i < |r| ==> r[i] == imcs[i].next
  {
    seq(|imcs|, i requires 0 <= i < |imcs| => imcs[i].next)
  }

  /** The IM contexts and the lists of those in use and those free; ctxs and spare are the places the lists run through. */
  datatype ImcStore = ImcStore(imcs: seq<Imc>, imcList: int, imcFree: int, ctxs: seq<nat>, spare: seq<nat>)

  ghost predicate ImcOk(s: ImcStore) {
    forall k: int :: Asked(k, s) ==> ImcLinks(s)
  }

  ghost predicate ImcLinks(s: ImcStore) {
    && Chain(ImcNexts(s.imcs), s.imcList, s.ctxs) && Chain(ImcNexts(s.imcs), s.imcFree, s.spare)
    && Parted(s.ctxs, s.spare, |s.imcs|) && Back(s.imcs, s.ctxs)
  }

  /** The list in use can be walked backwards too. */
  ghost predicate Back(imcs: seq<Imc>, ctxs: seq<nat>) {
    Within(ctxs, |imcs|) && forall i :: 0 <= i < |ctxs| ==> imcs[ctxs[i]].prev == NodeAt(ctxs, i - 1)
  }

  lemma BackPushed(imcs: seq<Imc>, ctxs: seq<nat>, a: nat, imcs': seq<Imc>)
    requires Back(imcs, ctxs) && Distinct(ctxs) && a !in ctxs && a < |imcs'| && |imcs| <= |imcs'| && imcs'[a].prev == NULL
    requires ctxs != [] ==> imcs'[ctxs[0]].prev == a
    requires forall k :: 0 <= k < |imcs| && k != a && (ctxs != [] ==> k != ctxs[0]) ==> imcs'[k].prev == imcs[k].prev
    ensures Back(imcs', [a] + ctxs)
  {
    var more := [a] + ctxs;
    forall i | 0 <= i < |more| ensures more[i] < |imcs'| && imcs'[more[i]].prev == NodeAt(more, i - 1) {
      if i > 1 {
        assert ctxs[i - 1] in ctxs && imcs[ctxs[i - 1]].prev == NodeAt(ctxs, i - 2);
      }
    }
  }

  /** The ids of all records but one are what they were. */
  ghost predicate SameIds(before: seq<Imc>, after: seq<Imc>, but: int) {
    |before| <= |after| && forall k :: 0 <= k < |before| && k != but ==> after[k].id == before[k].id && after[k].icid == before[k].icid
  }

  /** A context put in front of the list in use, linked both ways. */
  function InFront(imcs: seq<Imc>, list: int, a: nat, icid: nat): (r: seq<Imc>)
    requires a < |imcs| && (list == NULL || 0 <= list < |imcs|)
    ensures |r| == |imcs|
  {
    (if list != NULL then imcs[list := imcs[list].(prev := a)] else imcs)[a := Imc(icid, icid, list, NULL)]
  }

  lemma ImcReused(s: ImcStore, icid: nat, t: ImcStore)
    requires ImcOk(s) && s.spare != [] && s.spare[0] < |s.imcs| && (s.imcList == NULL || 0 <= s.imcList < |s.imcs|)
    requires var a := s.spare[0];
      t == ImcStore(InFront(s.imcs, s.imcList, a, icid), a, s.imcs[a].next, [a] + s.ctxs, s.spare[1..])
    ensures ImcOk(t) && SameIds(s.imcs, t.imcs, s.spare[0]) && s.spare[0] !in s.ctxs
  {
    assert Asked(0, s);
    var a := s.spare[0];
    var next := ImcNexts(s.imcs);
    Reused(next, s.imcList, s.imcFree, s.ctxs, s.spare);
    OneOf(s.ctxs, s.spare, |s.imcs|);
    assert ImcNexts(t.imcs) == next[a := s.imcList];
    BackPushed(s.imcs, s.ctxs, a, t.imcs);
  }

  lemma ImcMade(s: ImcStore, icid: nat, t: ImcStore)
    requires ImcOk(s) && (s.imcList == NULL || 0 <= s.imcList < |s.imcs|)
    requires t == ImcStore(InFront(s.imcs + [Imc(0, 0, NULL, NULL)], s.imcList, |s.imcs|, icid), |s.imcs|, s.imcFree, [|s.imcs|] + s.ctxs, s.spare)
    ensures ImcOk(t) && SameIds(s.imcs, t.imcs, NULL) && |s.imcs| !in s.ctxs
  {
    assert Asked(0, s);
    var a := |s.imcs|;
    var next := ImcNexts(s.imcs);
    Made(next, s.imcList, s.imcFree, s.ctxs, s.spare);
    OneOf(s.ctxs, s.spare, |s.imcs|);
    assert ImcNexts(t.imcs) == next + [s.imcList];
    BackPushed(s.imcs, s.ctxs, a, t.imcs);
  }

  /** A context unlinked from both neighbours. */
  function Unhooked(imcs: seq<Imc>, a: nat): (r: seq<Imc>)
    requires a < |imcs| && -1 <= imcs[a].prev < |imcs| && -1 <= imcs[a].next < |imcs|
    ensures |r| == |imcs|
  {
    var prev, next := imcs[a].prev, imcs[a].next;
    var half := if prev != NULL then imcs[prev := imcs[prev].(next := next)] else imcs;
    if next != NULL then half[next := half[next].(prev := prev)] else half
  }

  /** What unhooking context i of the list does to the links of the others. */
  lemma UnhookedIs(imcs: seq<Imc>, ctxs: seq<nat>, i: nat)
    requires Within(ctxs, |imcs|) && Distinct(ctxs) && i < |ctxs|
    requires imcs[ctxs[i]].prev == NodeAt(ctxs, i - 1) && imcs[ctxs[i]].next == NodeAt(ctxs, i + 1)
    ensures var next, half := ImcNexts(imcs), Unhooked(imcs, ctxs[i]);
      && ImcNexts(half) == (if i > 0 then next[ctxs[i - 1] := next[ctxs[i]]] else next)
      && (i + 1 < |ctxs| ==> half[ctxs[i + 1]].prev == NodeAt(ctxs, i - 1))
      && (forall k :: 0 <= k < |imcs| && (i + 1 < |ctxs| ==> k != ctxs[i + 1]) ==> half[k].prev == imcs[k].prev)
      && SameIds(imcs, half, NULL)
  {
    var half := Unhooked(imcs, ctxs[i]);
    if i > 0 && i + 1 < |ctxs| {
      assert ctxs[i - 1] != ctxs[i + 1];
    }
  }

  /** Context i off the list in use and in front of the free one. */
  ghost predicate Dropping(s: ImcStore, i: nat, half: seq<Imc>, t: ImcStore)
    requires i < |s.ctxs| && s.ctxs[i] < |s.imcs| == |half|
  {
    var a := s.ctxs[i];
    t == ImcStore(half[a := half[a].(next := s.imcFree)], if s.imcs[a].prev != NULL then s.imcList else s.imcs[a].next, a,
                  Without(s.ctxs, i), [a] + s.spare)
  }

  lemma ContextLinks(s: ImcStore, i: nat)
    requires ImcOk(s) && i < |s.ctxs|
    ensures Within(s.ctxs, |s.imcs|) && Distinct(s.ctxs)
    ensures s.imcs[s.ctxs[i]].prev == NodeAt(s.ctxs, i - 1) && s.imcs[s.ctxs[i]].next == NodeAt(s.ctxs, i + 1)
    ensures -1 <= NodeAt(s.ctxs, i - 1) < |s.imcs| && -1 <= NodeAt(s.ctxs, i + 1) < |s.imcs|
  {
    assert Asked(0, s);
    OneOf(s.ctxs, s.spare, |s.imcs|);
    assert ImcNexts(s.imcs)[s.ctxs[i]] == NodeAt(s.ctxs, i + 1);
  }

  lemma ImcDropped(s: ImcStore, i: nat, half: seq<Imc>, t: ImcStore)
    requires ImcOk(s) && i < |s.ctxs| && Within(s.ctxs, |s.imcs|)
    requires -1 <= s.imcs[s.ctxs[i]].prev < |s.imcs| && -1 <= s.imcs[s.ctxs[i]].next < |s.imcs|
    requires half == Unhooked(s.imcs, s.ctxs[i]) && Dropping(s, i, half, t)
    ensures ImcOk(t) && SameIds(s.imcs, t.imcs, NULL)
  {
    assert Asked(0, s);
    var a := s.ctxs[i];
    var next := ImcNexts(s.imcs);
    ContextLinks(s, i);
    UnhookedIs(s.imcs, s.ctxs, i);
    var unlinked := if i > 0 then next[s.ctxs[i - 1] := next[a]] else next;
    Dropped(next, s.imcList, s.imcFree, s.ctxs, s.spare, i, unlinked, t.imcList);
    Relinked(half, a, s.imcFree);
    BackDropped(s.imcs, s.ctxs, i, t.imcs);
  }

  lemma Relinked(imcs: seq<Imc>, a: nat, to: int)
    requires a < |imcs|
    ensures var more := imcs[a := imcs[a].(next := to)]; ImcNexts(more) == ImcNexts(imcs)[a := to] && SameIds(imcs, more, NULL)
  {
  }

  lemma BackDropped(imcs: seq<Imc>, ctxs: seq<nat>, i: nat, imcs': seq<Imc>)
    requires Back(imcs, ctxs) && Distinct(ctxs) && i < |ctxs| && |imcs| == |imcs'|
    requires i + 1 < |ctxs| ==> imcs'[ctxs[i + 1]].prev == NodeAt(ctxs, i - 1)
    requires forall k :: 0 <= k < |imcs| && k != ctxs[i] && (i + 1 < |ctxs| ==> k != ctxs[i + 1]) ==> imcs'[k].prev == imcs[k].prev
    ensures Back(imcs', Without(ctxs, i))
  {
    var r := Without(ctxs, i);
    forall k | 0 <= k < |r| ensures r[k] < |imcs'| && imcs'[r[k]].prev == NodeAt(r, k - 1) {
      BackAt(imcs, ctxs, i, imcs', r, k);
    }
  }

  lemma BackAt(imcs: seq<Imc>, ctxs: seq<nat>, i: nat, imcs': seq<Imc>, r: seq<nat>, k: nat)
    requires Back(imcs, ctxs) && Distinct(ctxs) && i < |ctxs| && |imcs| == |imcs'| && r == Without(ctxs, i) && k < |r|
    requires i + 1 < |ctxs| ==> imcs'[ctxs[i + 1]].prev == NodeAt(ctxs, i - 1)
    requires forall k :: 0 <= k < |imcs| && k != ctxs[i] && (i + 1 < |ctxs| ==> k != ctxs[i + 1]) ==> imcs'[k].prev == imcs[k].prev
    ensures r[k] < |imcs'| && imcs'[r[k]].prev == NodeAt(r, k - 1)
  {
    if k < i {
      assert r[k] == ctxs[k] && imcs[ctxs[k]].prev == NodeAt(ctxs, k - 1);
    } else if k > i {
      assert r[k] == ctxs[k + 1] && imcs[ctxs[k + 1]].prev == NodeAt(ctxs, k);
    }
  }

  /** The contexts and the lists of those in use and those free; live and idle are the places the lists run through. */
  datatype IcStore = IcStore(ics: seq<Ic>, icList: int, icFree: int, live: seq<nat>, idle: seq<nat>, icid: nat)

  ghost predicate IcOk(s: IcStore) {
    forall k: int :: Asked(k, s) ==> IcLinks(s) && Numbered(s.ics, s.icid)
  }

  ghost predicate IcLinks(s: IcStore) {
    && Chain(IcNexts(s.ics), s.icList, s.live) && Chain(IcNexts(s.ics), s.icFree, s.idle)
    && Parted(s.live, s.idle, |s.ics|)
  }

  /** Ids are CARD16 and given out in order; a record keeps its id when it is used again. */
  ghost predicate Numbered(ics: seq<Ic>, icid: nat) {
    forall k: int :: Asked(k, ics) ==>
      icid == |ics| % 0x1_0000 && forall a: nat :: a < |ics| ==> ics[a].id == (a + 1) % 0x1_0000
  }

  /** The ids of all contexts, in use or free, are different as long as no more than 65536 were ever made at a time. */
  lemma IdsAreUnique(ics: seq<Ic>, icid: nat)
    requires Numbered(ics, icid)
    ensures |ics| <= 0x1_0000 <==> forall a: nat, b: nat :: a < b < |ics| ==> ics[a].id != ics[b].id
  {
    assert Asked(0, ics);
    if |ics| > 0x1_0000 {
      assert ics[0].id == ics[0x1_0000].id;
    }
  }

  /** With an IM context for each context: the two lists run side by side. */
  ghost predicate Paired(ics: seq<Ic>, imcs: seq<Imc>, live: seq<nat>, ctxs: seq<nat>) {
    |ctxs| == |live| && Within(live, |ics|) && Within(ctxs, |imcs|) && forall i :: 0 <= i < |live| ==>
      ics[live[i]].imc == ctxs[i] && imcs[ctxs[i]].id == ics[live[i]].id && imcs[ctxs[i]].icid == ics[live[i]].id
  }

  /** With one IM context for all. */
  ghost predicate Shared(ics: seq<Ic>, live: seq<nat>, ctxs: seq<nat>) {
    |ctxs| <= 1 && Within(live, |ics|) && forall i :: 0 <= i < |live| ==> ctxs != [] && ics[live[i]].imc == ctxs[0]
  }

  ghost predicate Attached(single: bool, ics: seq<Ic>, imcs: seq<Imc>, live: seq<nat>, ctxs: seq<nat>, spare: seq<nat>) {
    if single then spare == [] && Shared(ics, live, ctxs) else Paired(ics, imcs, live, ctxs)
  }

  /** A focus pointer after the context a is gone. */
  function LetGo(x: int, a: nat): int {
    if x == a then NULL else x
  }

  /** after is the focus pointer before, or NULL when its context is no longer in use. */
  ghost predicate StillFocus(before: int, live: seq<nat>, after: int) {
    forall k: int :: Asked(k, (before, live)) ==> after == if before >= 0 && before in live then before else NULL
  }

  lemma StillFocusAll(live: seq<nat>, x: int)
    requires InFocus(live, x)
    ensures StillFocus(x, live, x)
  {
  }

  lemma StillFocusStep(x: int, live: seq<nat>, y: int, i: nat)
    requires Distinct(live) && i < |live| && StillFocus(x, live, y)
    ensures StillFocus(x, Without(live, i), LetGo(y, live[i]))
  {
    assert Asked(0, (x, live));
    var rest := Without(live, i);
    if x >= 0 && x in live && x != live[i] {
      var k :| 0 <= k < |live| && live[k] == x;
      assert rest[if k < i then k else k - 1] == x;
    }
    assert forall k :: 0 <= k < |rest| ==> rest[k] == live[if k < i then k else k + 1];
  }

  ghost predicate InFocus(live: seq<nat>, x: int) {
    x == NULL || (0 <= x && x in live)
  }

  /** Only links differ. */
  ghost predicate OnlyLinks(before: seq<Ic>, after: seq<Ic>) {
    |before| == |after| && forall a :: 0 <= a < |before| ==> after[a] == before[a].(next := after[a].next)
  }

  lemma IcReused(s: IcStore, rec: Ic, t: IcStore)
    requires IcOk(s) && s.idle != [] && s.idle[0] < |s.ics| && rec.id == s.ics[s.idle[0]].id && rec.next == s.icList
    requires var a := s.idle[0]; t == IcStore(s.ics[a := rec], a, s.ics[a].next, [a] + s.live, s.idle[1..], s.icid)
    ensures IcOk(t) && s.idle[0] !in s.live
  {
    assert Asked(0, s);
    var a := s.idle[0];
    var next := IcNexts(s.ics);
    Reused(next, s.icList, s.icFree, s.live, s.idle);
    assert IcNexts(t.ics) == next[a := s.icList];
    NumberedSame(s.ics, s.icid, t.ics);
  }

  lemma NumberedSame(ics: seq<Ic>, icid: nat, ics': seq<Ic>)
    requires Numbered(ics, icid) && |ics'| == |ics| && forall a :: 0 <= a < |ics| ==> ics'[a].id == ics[a].id
    ensures Numbered(ics', icid)
  {
    assert Asked(0, ics);
  }

  lemma NumberedMore(ics: seq<Ic>, icid: nat, rec: Ic, ics': seq<Ic>)
    requires Numbered(ics, icid) && rec.id == NextId(icid) && ics' == ics + [rec]
    ensures Numbered(ics', rec.id)
  {
    assert Asked(0, ics);
  }

  /** The id after one. */
  function NextId(icid: nat): nat {
    (icid + 1) % 0x1_0000
  }

  lemma IcOpened(s: IcStore)
    requires IcOk(s)
    ensures IcLinks(s) && Numbered(s.ics, s.icid)
  {
    assert Asked(0, s);
  }

  lemma IcClosed(s: IcStore)
    requires IcLinks(s) && Numbered(s.ics, s.icid)
    ensures IcOk(s)
  {
  }

  lemma IcMade(s: IcStore, rec: Ic, t: IcStore)
    requires IcOk(s) && rec.id == NextId(s.icid) && rec.next == s.icList
    requires t == IcStore(s.ics + [rec], |s.ics|, s.icFree, [|s.ics|] + s.live, s.idle, rec.id)
    ensures IcOk(t) && |s.ics| !in s.live
  {
    IcOpened(s);
    MadeLinks(s, rec, t);
    NumberedMore(s.ics, s.icid, rec, t.ics);
    IcClosed(t);
  }

  lemma MadeLinks(s: IcStore, rec: Ic, t: IcStore)
    requires IcLinks(s) && rec.next == s.icList
    requires t == IcStore(s.ics + [rec], |s.ics|, s.icFree, [|s.ics|] + s.live, s.idle, rec.id)
    ensures IcLinks(t) && |s.ics| !in s.live
  {
    var next := IcNexts(s.ics);
    Made(next, s.icList, s.icFree, s.live, s.idle);
    assert IcNexts(t.ics) == next + [s.icList];
  }

  /** The record before the one at i, or the head, skips it. */
  function Skipping(ics: seq<Ic>, live: seq<nat>, i: nat): (r: seq<Ic>)
    requires i < |live| && Within(live, |ics|)
    ensures |r| == |ics|
  {
    if i > 0 then Linked(ics, live[i - 1], ics[live[i]].next) else ics
  }

  /** A record linked to another. */
  function Linked(ics: seq<Ic>, a: nat, to: int): (r: seq<Ic>)
    requires a < |ics|
    ensures |r| == |ics| && IcNexts(r) == IcNexts(ics)[a := to] && OnlyLinks(ics, r)
  {
    var r := ics[a := ics[a].(next := to)];
    assert IcNexts(r) == IcNexts(ics)[a := to];
    r
  }

  lemma IcDropped(s: IcStore, i: nat, half: seq<Ic>, t: IcStore)
    requires IcOk(s) && i < |s.live| && Within(s.live, |s.ics|) && half == Skipping(s.ics, s.live, i)
    requires var a := s.live[i];
      t == IcStore(Linked(half, a, s.icFree), if i > 0 then s.icList else s.ics[a].next, a, Without(s.live, i), [a] + s.idle, s.icid)
    ensures IcOk(t) && OnlyLinks(s.ics, t.ics)
  {
    assert Asked(0, s);
    DroppedLinks(s, i, half, t);
    OnlyLinksTwice(s.ics, half, t.ics);
    NumberedSame(s.ics, s.icid, t.ics);
  }

  lemma OnlyLinksTwice(a: seq<Ic>, b: seq<Ic>, c: seq<Ic>)
    requires OnlyLinks(a, b) && OnlyLinks(b, c)
    ensures OnlyLinks(a, c) && forall k :: 0 <= k < |a| ==> c[k].id == a[k].id
  {
  }

  lemma DroppedLinks(s: IcStore, i: nat, half: seq<Ic>, t: IcStore)
    requires IcLinks(s) && i < |s.live| && half == Skipping(s.ics, s.live, i)
    requires var a := s.live[i];
      t == IcStore(Linked(half, a, s.icFree), if i > 0 then s.icList else s.ics[a].next, a, Without(s.live, i), [a] + s.idle, s.icid)
    ensures IcLinks(t) && OnlyLinks(s.ics, half) && OnlyLinks(half, t.ics)
  {
    var a := s.live[i];
    var next := IcNexts(s.ics);
    var unlinked := if i > 0 then next[s.live[i - 1] := next[a]] else next;
    assert IcNexts(half) == unlinked;
    Dropped(next, s.icList, s.icFree, s.live, s.idle, i, unlinked, t.icList);
  }

  /** What the registry is between requests: ic and icp are the contexts in focus and the one before. */
  ghost predicate RegistryOk(single: bool, s: IcStore, m: ImcStore, ic: int, icp: int) {
    && IcOk(s) && ImcOk(m) && Attached(single, s.ics, m.imcs, s.live, m.ctxs, m.spare)
    && InFocus(s.live, ic) && InFocus(s.live, icp)
  }

  /** A new context and its IM context stand side by side at the front; with one for all, it is that one. */
  lemma AttachedNew(single: bool, ics: seq<Ic>, imcs: seq<Imc>, live: seq<nat>, ctxs: seq<nat>, spare: seq<nat>, a: nat, imc: nat,
                    ics': seq<Ic>, imcs': seq<Imc>, ctxs': seq<nat>, spare': seq<nat>)
    requires Attached(single, ics, imcs, live, ctxs, spare)
    requires a !in live && a < |ics'| && |ics| <= |ics'| && forall k :: 0 <= k < |ics| && k != a ==> ics'[k] == ics[k]
    requires ics'[a].imc == imc < |imcs'|
    requires
      if single then ctxs' == [imc] && spare' == [] && (ctxs != [] ==> ctxs' == ctxs)
      else ctxs' == [imc] + ctxs && imc !in ctxs && SameIds(imcs, imcs', imc) && imcs'[imc].id == imcs'[imc].icid == ics'[a].id
    ensures Attached(single, ics', imcs', [a] + live, ctxs', spare')
  {
    var more := [a] + live;
    forall i | 0 <= i < |more|
      ensures more[i] < |ics'| && (single ==> ics'[more[i]].imc == ctxs'[0])
      ensures !single ==> ctxs'[i] < |imcs'| && ics'[more[i]].imc == ctxs'[i] && imcs'[ctxs'[i]].id == imcs'[ctxs'[i]].icid == ics'[more[i]].id
    {
      if i > 0 {
        assert live[i - 1] in live;
        if !single {
          assert ctxs[i - 1] in ctxs;
        }
      }
    }
  }

  lemma AttachedLess(single: bool, ics: seq<Ic>, imcs: seq<Imc>, live: seq<nat>, ctxs: seq<nat>, spare: seq<nat>, i: nat,
                     ics': seq<Ic>, imcs': seq<Imc>, ctxs': seq<nat>, spare': seq<nat>)
    requires Attached(single, ics, imcs, live, ctxs, spare) && i < |live| && OnlyLinks(ics, ics')
    requires
      if single then ctxs' == ctxs && spare' == spare && imcs' == imcs
      else ctxs' == Without(ctxs, i) && SameIds(imcs, imcs', NULL)
    ensures Attached(single, ics', imcs', Without(live, i), ctxs', spare')
  {
    var r := Without(live, i);
    forall k | 0 <= k < |r|
      ensures r[k] < |ics'| && (single ==> ctxs' != [] && ics'[r[k]].imc == ctxs'[0])
      ensures !single ==>
        ctxs'[k] < |imcs'| && ics'[r[k]].imc == ctxs'[k] && imcs'[ctxs'[k]].id == ics'[r[k]].id && imcs'[ctxs'[k]].icid == ics'[r[k]].id
    {
      var m := if k < i then k else k + 1;
      assert r[k] == live[m] < |ics|;
      if !single {
        assert ctxs'[k] == ctxs[m] < |imcs|;
      }
    }
  }

  lemma FocusKept(live: seq<nat>, i: nat, x: int)
    requires i < |live| && InFocus(live, x) && x != live[i]
    ensures InFocus(Without(live, i), x)
  {
    if x != NULL {
      var k :| 0 <= k < |live| && live[k] == x;
      assert Without(live, i)[if k < i then k else k - 1] == x;
    }
  }

  lemma FocusMore(live: seq<nat>, a: nat, x: int)
    requires InFocus(live, x)
    ensures InFocus([a] + live, x)
  {
  }

  /** The heads of the lists of contexts. */
  lemma IcHeads(s: IcStore)
    requires IcOk(s)
    ensures Within(s.live, |s.ics|) && s.icList == NodeAt(s.live, 0) && s.icFree == NodeAt(s.idle, 0)
    ensures s.icFree == NULL || 0 <= s.icFree < |s.ics|
  {
    assert Asked(0, s);
  }

  const IC_IDLE_TIME := 600
  const TIMECHECK_STEP := 300

  /** Why contexts are deleted: their client went, or a look at the windows and times finds them stale. */
  datatype Why = OfClient(connectId: nat) | Stale(ref: nat, focusWin: int, now: int, gone: set<int>)

  predicate Leaves(why: Why, a: nat, rec: Ic) {
    match why
    case OfClient(connectId) => rec.connectId == connectId
    case Stale(ref, focusWin, now, gone) =>
      a != ref && if rec.focusWin != 0 && rec.focusWin == focusWin then true
                  else now - rec.execTime > IC_IDLE_TIME && rec.clientWin != 0 && rec.clientWin in gone
  }

  /** The contexts that stay, in their order. */
  function Staying(ics: seq<Ic>, nodes: seq<nat>, why: Why): (r: seq<nat>)
    requires Within(nodes, |ics|)
    ensures |r| <= |nodes|
  {
    if nodes == [] then []
    else
      var a := nodes[|nodes| - 1];
      var before := Staying(ics, nodes[..|nodes| - 1], why);
      if Leaves(why, a, ics[a]) then before else before + [a]
  }

  /** Exactly the contexts that do not leave stay. */
  lemma {:induction false} StayingExactly(ics: seq<Ic>, nodes: seq<nat>, why: Why)
    requires Within(nodes, |ics|)
    ensures forall x :: x in Staying(ics, nodes, why) <==> x in nodes && !Leaves(why, x, ics[x])
  {
    if nodes != [] {
      var front, a := nodes[..|nodes| - 1], nodes[|nodes| - 1];
      StayingExactly(ics, front, why);
      assert nodes == front + [a];
    }
  }

  /** The contexts of all other clients stay. */
  lemma CleanStays(ics0: seq<Ic>, orig: seq<nat>, live: seq<nat>, connectId: nat, a: nat)
    requires Within(orig, |ics0|) && live == Staying(ics0, orig, OfClient(connectId))
    ensures a in live <==> a in orig && ics0[a].connectId != connectId
  {
    StayingExactly(ics0, orig, OfClient(connectId));
  }

  /** Some go if and only if the client had some. */
  lemma CleanedNone(ics0: seq<Ic>, orig: seq<nat>, live: seq<nat>, connectId: nat)
    requires Within(orig, |ics0|) && live == Staying(ics0, orig, OfClient(connectId))
    ensures |live| < |orig| <==> exists a: nat :: a in orig && ics0[a].connectId == connectId
  {
    StayingAll(ics0, orig, OfClient(connectId));
  }

  /** As many stay as there are if and only if none has a reason to go. */
  lemma {:induction false} StayingAll(ics: seq<Ic>, nodes: seq<nat>, why: Why)
    requires Within(nodes, |ics|)
    ensures |Staying(ics, nodes, why)| == |nodes| <==> forall a: nat :: a in nodes ==> !Leaves(why, a, ics[a])
  {
    if nodes != [] {
      var front, a := nodes[..|nodes| - 1], nodes[|nodes| - 1];
      StayingAll(ics, front, why);
      assert nodes == front + [a];
    }
  }

  /** Who stays after a look at the windows: the reference, and who neither shares its window nor has been idle and lost its own. */
  lemma StaleStays(ics0: seq<Ic>, orig: seq<nat>, live: seq<nat>, ref: nat, now: int, gone: set<int>, a: nat)
    requires Within(orig, |ics0|) && ref < |ics0| && live == Staying(ics0, orig, Stale(ref, ics0[ref].focusWin, now, gone))
    ensures a in live <==>
      && a in orig
      && (a != ref ==>
            && (ics0[a].focusWin == 0 || ics0[a].focusWin != ics0[ref].focusWin)
            && (now - ics0[a].execTime <= IC_IDLE_TIME || ics0[a].clientWin == 0 || ics0[a].clientWin !in gone))
  {
    StayingExactly(ics0, orig, Stale(ref, ics0[ref].focusWin, now, gone));
  }

  /** And when it was seen. */
  lemma StaleSeen(ics0: seq<Ic>, ics: seq<Ic>, orig: seq<nat>, live: seq<nat>, ref: nat, now: int, gone: set<int>, a: nat)
    requires Untouched(ics0, ics, orig, |orig|, ref, now) && a in live
    requires live == Staying(ics0, orig, Stale(ref, ics0[ref].focusWin, now, gone))
    ensures a < |ics| == |ics0| && ics[a].execTime ==
      if a == ref || (now - ics0[a].execTime > IC_IDLE_TIME && ics0[a].clientWin != 0) then now else ics0[a].execTime
  {
    StayingExactly(ics0, orig, Stale(ref, ics0[ref].focusWin, now, gone));
    var k :| 0 <= k < |orig| && orig[k] == a;
    SeenAt(ics0, ics, orig, ref, now, k);
  }

  lemma SeenAt(ics0: seq<Ic>, ics: seq<Ic>, orig: seq<nat>, ref: nat, now: int, k: nat)
    requires Untouched(ics0, ics, orig, |orig|, ref, now) && k < |orig|
    ensures ics[orig[k]].execTime == TimeSeen(ref, ics0[ref].focusWin, now, orig[k], ics0[orig[k]])
  {
    var j: nat := |orig|;
    assert Asked(0, (j, ics));
  }

  /** And two that stay keep their order. */
  lemma {:induction false} StayingInOrder(ics: seq<Ic>, nodes: seq<nat>, why: Why, x: nat, y: nat)
    requires Within(nodes, |ics|) && Before(Staying(ics, nodes, why), x, y)
    ensures Before(nodes, x, y)
  {
    var front, a := nodes[..|nodes| - 1], nodes[|nodes| - 1];
    var before := Staying(ics, front, why);
    assert nodes == front + [a];
    if Before(before, x, y) {
      StayingInOrder(ics, front, why, x, y);
      BeforeMore(front, a, x, y);
    } else {
      LastBehind(before, a, x, y);
      StayingExactly(ics, front, why);
      BehindAll(front, a, x);
    }
  }

  lemma BeforeMore(nodes: seq<nat>, a: nat, x: nat, y: nat)
    requires Before(nodes, x, y)
    ensures Before(nodes + [a], x, y)
  {
    var i, j :| 0 <= i < j < |nodes| && nodes[i] == x && nodes[j] == y;
    assert (nodes + [a])[i] == x && (nodes + [a])[j] == y;
  }

  lemma LastBehind(nodes: seq<nat>, a: nat, x: nat, y: nat)
    requires Before(nodes + [a], x, y) && !Before(nodes, x, y)
    ensures y == a && x in nodes
  {
    var i, j :| 0 <= i < j < |nodes + [a]| && (nodes + [a])[i] == x && (nodes + [a])[j] == y;
    assert i < |nodes| && nodes[i] == x;
    if j < |nodes| {
      assert false;
    }
  }

  lemma BehindAll(nodes: seq<nat>, a: nat, x: nat)
    requires x in nodes
    ensures Before(nodes + [a], x, a)
  {
    var i :| 0 <= i < |nodes| && nodes[i] == x;
    assert (nodes + [a])[i] == x && (nodes + [a])[|nodes|] == a;
  }

  ghost predicate Before(nodes: seq<nat>, x: nat, y: nat) {
    exists i, j :: 0 <= i < j < |nodes| && nodes[i] == x && nodes[j] == y
  }

  /** Only links and times differ. */
  ghost predicate OnlyTimes(before: seq<Ic>, after: seq<Ic>) {
    |before| == |after| && forall k: int :: Asked(k, after) ==>
      forall a :: 0 <= a < |before| ==> after[a] == before[a].(next := after[a].next, execTime := after[a].execTime)
  }

  lemma OnlyTimesAt(before: seq<Ic>, after: seq<Ic>, a: nat)
    requires OnlyTimes(before, after) && a < |before|
    ensures after[a] == before[a].(next := after[a].next, execTime := after[a].execTime)
  {
    assert Asked(0, after);
  }

  lemma OnlyTimesTwice(a: seq<Ic>, b: seq<Ic>, c: seq<Ic>)
    requires OnlyTimes(a, b) && OnlyTimes(b, c)
    ensures OnlyTimes(a, c)
  {
    assert Asked(0, b) && Asked(0, c);
  }

  /** The list while it is swept: what stays of the first j contexts, and the others. */
  ghost predicate Sweeping(ics0: seq<Ic>, orig: seq<nat>, why: Why, j: nat, live: seq<nat>, i: nat) {
    j <= |orig| && Within(orig, |ics0|) && |live| - i == |orig| - j && forall k: int :: Asked(k, (j, live)) ==>
      i == |Staying(ics0, orig[..j], why)| && live == Staying(ics0, orig[..j], why) + orig[j..]
  }

  lemma SweptOne(ics0: seq<Ic>, orig: seq<nat>, why: Why, j: nat, live: seq<nat>, i: nat)
    requires Sweeping(ics0, orig, why, j, live, i) && j < |orig|
    ensures i < |live| && live[i] == orig[j]
    ensures
      if Leaves(why, orig[j], ics0[orig[j]]) then Sweeping(ics0, orig, why, j + 1, Without(live, i), i)
      else Sweeping(ics0, orig, why, j + 1, live, i + 1)
  {
    assert Asked(0, (j, live));
    assert orig[..j + 1][..j] == orig[..j] && orig[j..] == [orig[j]] + orig[j + 1..];
  }

  lemma SweptAll(ics0: seq<Ic>, orig: seq<nat>, why: Why, live: seq<nat>, i: nat, j: nat)
    requires Sweeping(ics0, orig, why, j, live, i) && i >= |live|
    ensures j == |orig| && live == Staying(ics0, orig, why)
  {
    assert Asked(0, (j, live));
    assert orig[..|orig|] == orig;
  }

  lemma SweptNone(ics0: seq<Ic>, orig: seq<nat>, why: Why)
    requires Within(orig, |ics0|)
    ensures Sweeping(ics0, orig, why, 0, orig, 0) && OnlyTimes(ics0, ics0)
  {
    assert orig[..0] == [] && orig[0..] == orig;
  }

  /** Following the list. */
  lemma IcNext(s: IcStore, i: nat)
    requires IcOk(s) && i < |s.live|
    ensures s.live[i] < |s.ics| && s.ics[s.live[i]].next == NodeAt(s.live, i + 1)
    ensures s.icList == NodeAt(s.live, 0)
  {
    assert Asked(0, s);
    assert IcNexts(s.ics)[s.live[i]] == NodeAt(s.live, i + 1);
  }

  /** A record changed in what the lists do not look at. */
  lemma RecordSet(single: bool, s: IcStore, m: ImcStore, ic: int, icp: int, a: nat, rec: Ic, t: IcStore)
    requires RegistryOk(single, s, m, ic, icp) && a < |s.ics|
    requires rec.id == s.ics[a].id && rec.next == s.ics[a].next && rec.imc == s.ics[a].imc && t == s.(ics := s.ics[a := rec])
    ensures RegistryOk(single, t, m, ic, icp)
  {
    IcOpened(s);
    assert IcNexts(t.ics) == IcNexts(s.ics);
    NumberedSame(s.ics, s.icid, t.ics);
    IcClosed(t);
  }

  class Registry {
    const single: bool
    var ics: seq<Ic>
    var icList: int
    var icFree: int
    var icid: nat
    var imcs: seq<Imc>
    var imcList: int
    var imcFree: int
    var ic: int
    var icp: int
    ghost var live: seq<nat>
    ghost var idle: seq<nat>
    ghost var ctxs: seq<nat>
    ghost var spare: seq<nat>

    ghost function Contexts(): IcStore
      reads this
    {
      IcStore(ics, icList, icFree, live, idle, icid)
    }

    ghost function ImContexts(): ImcStore
      reads this
    {
      ImcStore(imcs, imcList, imcFree, ctxs, spare)
    }

    ghost predicate Valid()
      reads this
    {
      RegistryOk(single, Contexts(), ImContexts(), ic, icp)
    }

    constructor (single: bool)
      ensures Valid() && this.single == single && live == [] && ics == []
    {
      this.single := single;
      ics, icList, icFree, icid := [], NULL, NULL, 0;
      imcs, imcList, imcFree := [], NULL, NULL;
      ic, icp := NULL, NULL;
      live, idle, ctxs, spare := [], [], [], [];
    }

    /** new_IMC when each context has its own: from the free list if there is one. */
    method OwnIMC(newIcid: nat) returns (imc: nat)
      requires ImcOk(ImContexts())
      modifies this`imcs, this`imcList, this`imcFree, this`ctxs, this`spare
      ensures ImcOk(ImContexts()) && imc < |imcs| && |old(imcs)| <= |imcs|
      ensures ctxs == [imc] + old(ctxs) && imc !in old(ctxs) && SameIds(old(imcs), imcs, imc)
      ensures imcs[imc].id == imcs[imc].icid == newIcid && (old(spare) == [] ==> spare == [])
    {
      ghost var m := ImContexts();
      ghost var store;
      FrontApart(m);
      if imcFree != NULL {
        imc := imcFree;
        imcFree := imcs[imc].next;
        store := imcs;
        imcs := imcs[imc := Imc(0, 0, NULL, NULL)];
        spare := spare[1..];
      } else {
        imc := |imcs|;
        imcs := imcs + [Imc(0, 0, NULL, NULL)];
        store := imcs;
      }
      Steps(store, imcs, imcList, imc, newIcid);
      if imcList != NULL {
        imcs := imcs[imcList := imcs[imcList].(prev := imc)];
      }
      imcs := imcs[imc := imcs[imc].(next := imcList)];
      imcList := imc;
      imcs := imcs[imc := imcs[imc].(id := newIcid)];
      imcs := imcs[imc := imcs[imc].(icid := newIcid)];
      ctxs := [imc] + ctxs;
      if m.spare != [] {
        ImcReused(m, newIcid, ImContexts());
      } else {
        ImcMade(m, newIcid, ImContexts());
      }
    }

    /** new_IMC: a context of its own, or the one context for all. */
    method NewIMC(newIcid: nat) returns (imc: nat)
      requires ImcOk(ImContexts()) && (single ==> |ctxs| <= 1 && spare == [])
      modifies this`imcs, this`imcList, this`imcFree, this`ctxs, this`spare
      ensures ImcOk(ImContexts()) && imc < |imcs| && |old(imcs)| <= |imcs|
      ensures !single ==> ctxs == [imc] + old(ctxs) && imc !in old(ctxs) && SameIds(old(imcs), imcs, imc)
      ensures !single ==> imcs[imc].id == imcs[imc].icid == newIcid
      ensures single ==> ctxs == [imc] && spare == [] && (old(ctxs) != [] ==> ctxs == old(ctxs)) && imcs[imc].icid == newIcid
    {
      FrontApart(ImContexts());
      if !single || imcList == NULL {
        imc := OwnIMC(newIcid);
      } else {
        ghost var m := ImContexts();
        imc := imcList;
        imcs := imcs[imc := imcs[imc].(icid := newIcid)];
        AttachedAnew(m, imc, newIcid);
      }
    }

    /** delete_IMC: unlinked both ways, and in front of the free list. */
    method DeleteIMC(imc: nat, ghost i: nat)
      requires ImcOk(ImContexts()) && i < |ctxs| && ctxs[i] == imc
      modifies this`imcs, this`imcList, this`imcFree, this`ctxs, this`spare
      ensures ImcOk(ImContexts()) && |imcs| == |old(imcs)| && SameIds(old(imcs), imcs, NULL)
      ensures ctxs == Without(old(ctxs), i) && spare == [imc] + old(spare)
    {
      ghost var m := ImContexts();
      ContextLinks(m, i);
      var prev, next := imcs[imc].prev, imcs[imc].next;
      if prev != NULL {
        imcs := imcs[prev := imcs[prev].(next := next)];
      } else {
        imcList := next;
      }
      if next != NULL {
        imcs := imcs[next := imcs[next].(prev := prev)];
      }
      ghost var half := imcs;
      imcs := imcs[imc := imcs[imc].(next := imcFree)];
      imcFree := imc;
      ctxs, spare := Without(ctxs, i), [imc] + spare;
      ImcDropped(m, i, half, ImContexts());
    }

    /** The record of new_IC, cleared but for its id: from the free list with its old id, or a new one with the next id. */
    method ClearedIC() returns (rec: nat, newIcid: nat)
      requires IcOk(Contexts())
      modifies this`ics, this`icFree, this`icid, this`idle
      ensures rec < |ics| && Taking(old(Contexts()), rec, newIcid, ics, icFree, idle, icid)
      ensures ics[rec] == Ic(newIcid, 0, NULL, NULL, 0, 0, 0, false)
    {
      IcHeads(Contexts());
      if icFree != NULL {
        rec := icFree;
        icFree := ics[rec].next;
        newIcid := ics[rec].id;
        ics := ics[rec := Ic(0, 0, NULL, NULL, 0, 0, 0, false)];
        idle := idle[1..];
      } else {
        rec := |ics|;
        ics := ics + [Ic(0, 0, NULL, NULL, 0, 0, 0, false)];
        icid := NextId(icid);
        newIcid := icid;
      }
      ics := ics[rec := ics[rec].(id := newIcid)];
    }

    /** new_IC: the record gets its IM context, and its place at the front of the list. */
    method NewIC() returns (rec: nat)
      requires Valid()
      modifies this`ics, this`icList, this`icFree, this`icid, this`live, this`idle, this`imcs, this`imcList, this`imcFree, this`ctxs, this`spare
      ensures Valid() && live == [rec] + old(live) && rec !in old(live) && rec < |ics| && ics[rec].connectId == 0 && !ics[rec].focus
      ensures |old(ics)| <= |ics| && forall a :: 0 <= a < |old(ics)| && a != rec ==> ics[a] == old(ics)[a]
      ensures rec < |old(ics)| ==> ics[rec].id == old(ics)[rec].id
    {
      ghost var s, m := Contexts(), ImContexts();
      var newIcid;
      rec, newIcid := ClearedIC();
      ghost var cleared := ics;
      var imc := NewIMC(newIcid);
      ics := ics[rec := ics[rec].(imc := imc, next := icList)];
      icList := rec;
      live := [rec] + live;
      ghost var t := IcStore(ics, icList, icFree, live, idle, icid);
      ghost var new_ := Ic(newIcid, 0, imc, s.icList, 0, 0, 0, false);
      assert ics == cleared[rec := new_];
      NewIcOk(single, s, m, ic, icp, rec, new_, cleared, t, ImContexts());
    }

    /** The list part of delete_IC. */
    method UnlinkIC(a: nat, last: int, ghost i: nat)
      requires IcOk(Contexts()) && i < |live| && live[i] == a && last == NodeAt(live, i - 1)
      modifies this`ics, this`icList, this`icFree, this`live, this`idle
      ensures IcOk(Contexts()) && live == Without(old(live), i) && idle == [a] + old(idle) && OnlyLinks(old(ics), ics)
    {
      ghost var s := Contexts();
      IcHeads(s);
      if last != NULL {
        ics := ics[last := ics[last].(next := ics[a].next)];
      } else {
        icList := ics[a].next;
      }
      ghost var half := ics;
      ics := ics[a := ics[a].(next := icFree)];
      icFree := a;
      live, idle := Without(live, i), [a] + idle;
      IcDropped(s, i, half, Contexts());
    }

    /** delete_IC: the context at i of the list goes to the free list, and is no longer in focus. */
    method DeleteIC(a: nat, last: int, ghost i: nat)
      requires Valid() && i < |live| && live[i] == a && last == NodeAt(live, i - 1)
      modifies this`ics, this`icList, this`icFree, this`live, this`idle, this`imcs, this`imcList, this`imcFree, this`ctxs, this`spare
      modifies this`ic, this`icp
      ensures Valid() && live == Without(old(live), i) && idle == [a] + old(idle) && OnlyLinks(old(ics), ics)
      ensures ic == LetGo(old(ic), a) && icp == LetGo(old(icp), a)
    {
      ghost var s, m := Contexts(), ImContexts();
      var clear := !single;
      UnlinkIC(a, last, i);
      ghost var t := Contexts();
      FocusCleared(s.live, i, ic);
      if ic == a {
        ic := NULL;
      }
      FocusCleared(s.live, i, icp);
      if icp == a {
        icp := NULL;
      }
      OwnContext(single, s.ics, m.imcs, s.live, m.ctxs, m.spare, i, t.ics);
      if clear {
        DeleteIMC(ics[a].imc, i);
        AttachedLess(single, s.ics, m.imcs, s.live, m.ctxs, m.spare, i, t.ics, imcs, ctxs, spare);
      } else {
        AttachedLess(single, s.ics, m.imcs, s.live, m.ctxs, m.spare, i, t.ics, m.imcs, m.ctxs, m.spare);
      }
    }

    /** A deletion while the list is walked: the walk goes on behind the context before it. */
    method DeleteAndNext(a: nat, last: int, ghost i: nat) returns (next: int)
      requires Valid() && i < |live| && live[i] == a && last == NodeAt(live, i - 1)
      modifies this
      ensures Valid() && live == Without(old(live), i) && OnlyLinks(old(ics), ics) && OnlyTimes(old(ics), ics)
      ensures last == NodeAt(live, i - 1) && next == NodeAt(live, i)
      ensures ic == LetGo(old(ic), a) && icp == LetGo(old(icp), a)
    {
      DeleteIC(a, last, i);
      IcHeads(Contexts());
      if last != NULL {
        IcNext(Contexts(), i - 1);
        next := ics[last].next;
      } else {
        next := icList;
      }
    }

    /** ic_find: the context in use with an id. */
    method IcFind(id: nat) returns (found: int)
      requires Valid()
      ensures if found != NULL then 0 <= found < |ics| && found in live && ics[found].id == id
              else forall i :: 0 <= i < |live| ==> live[i] < |ics| && ics[live[i]].id != id
    {
      IcHeads(Contexts());
      found := icList;
      ghost var i := 0;
      while found != NULL
        invariant 0 <= i <= |live| && found == NodeAt(live, i)
        invariant forall k :: 0 <= k < i ==> live[k] < |ics| && ics[live[k]].id != id
        decreases |live| - i
      {
        IcNext(Contexts(), i);
        if ics[found].id == id {
          return;
        }
        found := ics[found].next;
        i := i + 1;
      }
    }

    /** ic_create: a new context for a client. */
    method IcCreate(connectId: nat) returns (rec: nat)
      requires Valid()
      modifies this
      ensures Valid() && live == [rec] + old(live) && rec !in old(live) && rec < |ics| && ics[rec].connectId == connectId && !ics[rec].focus
      ensures |old(ics)| <= |ics| && forall a :: 0 <= a < |old(ics)| && a != rec ==> ics[a] == old(ics)[a]
      ensures ic == old(ic) && icp == old(icp)
    {
      rec := NewIC();
      RecordSet(single, Contexts(), ImContexts(), ic, icp, rec, ics[rec].(connectId := connectId),
                Contexts().(ics := ics[rec := ics[rec].(connectId := connectId)]));
      ics := ics[rec := ics[rec].(connectId := connectId)];
    }

    /** ic_destroy: the context with an id, if there is one in use. */
    method IcDestroy(id: nat) returns (ok: bool)
      requires Valid()
      modifies this
      ensures Valid() && OnlyLinks(old(ics), ics)
      ensures ok == exists i :: 0 <= i < |old(live)| && old(live)[i] < |old(ics)| && old(ics)[old(live)[i]].id == id
      ensures if ok then exists i: nat :: i < |old(live)| && old(live)[i] < |ics| && ics[old(live)[i]].id == id && live == Without(old(live), i)
              else live == old(live)
      ensures StillFocus(old(ic), live, ic) && StillFocus(old(icp), live, icp)
    {
      IcHeads(Contexts());
      var a, last := icList, NULL;
      ghost var i: nat := 0;
      while a != NULL
        invariant i <= |live| && a == NodeAt(live, i) && last == NodeAt(live, i - 1)
        invariant Valid() && ics == old(ics) && live == old(live) && ic == old(ic) && icp == old(icp)
        invariant forall k :: 0 <= k < i ==> live[k] < |ics| && ics[live[k]].id != id
        decreases |live| - i
      {
        IcNext(Contexts(), i);
        if ics[a].id == id {
          StillFocusAll(live, ic);
          StillFocusAll(live, icp);
          StillFocusOn(i, ic, icp);
          DeleteIC(a, last, i);
          return true;
        }
        last, a := a, ics[a].next;
        i := i + 1;
      }
      ok := false;
      StillFocusAll(live, ic);
      StillFocusAll(live, icp);
    }

    /** The focus pointers when the i-th context goes. */
    lemma StillFocusOn(i: nat, ic0: int, icp0: int)
      requires Valid() && i < |live| && StillFocus(ic0, live, ic) && StillFocus(icp0, live, icp)
      ensures StillFocus(ic0, Without(live, i), LetGo(ic, live[i])) && StillFocus(icp0, Without(live, i), LetGo(icp, live[i]))
    {
      LiveDistinct(Contexts());
      StillFocusStep(ic0, live, ic, i);
      StillFocusStep(icp0, live, icp, i);
    }

    /** The walk of ic_clean_all at one context, the one at i of the list. */
    method CleanAt(a: nat, last: int, connectId: nat, ghost ics0: seq<Ic>, ghost i: nat) returns (delete: bool, next: int)
      requires Valid() && OnlyTimes(ics0, ics) && i < |live| && live[i] == a && last == NodeAt(live, i - 1)
      modifies this
      ensures Valid() && OnlyTimes(ics0, ics) && a < |ics0| && delete == (ics0[a].connectId == connectId)
      ensures live == if delete then Without(old(live), i) else old(live)
      ensures next == NodeAt(live, if delete then i else i + 1) && (delete ==> last == NodeAt(live, i - 1))
      ensures if delete then ic == LetGo(old(ic), a) && icp == LetGo(old(icp), a) else ic == old(ic) && icp == old(icp)
    {
      IcNext(Contexts(), i);
      OnlyTimesAt(ics0, ics, a);
      delete := ics[a].connectId == connectId;
      if delete {
        ghost var before := ics;
        next := DeleteAndNext(a, last, i);
        OnlyTimesTwice(ics0, before, ics);
      } else {
        next := ics[a].next;
      }
    }

    /** ic_clean_all: the contexts of a client go, the others stay in their order. */
    method IcCleanAll(connectId: nat) returns (any: bool)
      requires Valid()
      modifies this
      ensures Valid() && OnlyTimes(old(ics), ics) && Within(old(live), |old(ics)|)
      ensures live == Staying(old(ics), old(live), OfClient(connectId))
      ensures forall a: nat {:trigger a in live} :: a in live <==> a in old(live) && old(ics)[a].connectId != connectId
      ensures any <==> exists a: nat :: a in old(live) && old(ics)[a].connectId == connectId
      ensures StillFocus(old(ic), live, ic) && StillFocus(old(icp), live, icp)
    {
      IcHeads(Contexts());
      ghost var why, orig, ics0 := OfClient(connectId), live, ics;
      var a, last := icList, NULL;
      var cleaned := 0;
      ghost var i: nat, j: nat := 0, 0;
      SweptNone(ics0, orig, why);
      StillFocusAll(live, ic);
      StillFocusAll(live, icp);
      while a != NULL
        invariant Valid() && OnlyTimes(ics0, ics) && Sweeping(ics0, orig, why, j, live, i)
        invariant a == NodeAt(live, i) && last == NodeAt(live, i - 1) && cleaned == j - i
        invariant StillFocus(old(ic), live, ic) && StillFocus(old(icp), live, icp)
        decreases |orig| - j
      {
        SweptOne(ics0, orig, why, j, live, i);
        StillFocusOn(i, old(ic), old(icp));
        var delete, next := CleanAt(a, last, connectId, ics0, i);
        if delete {
          cleaned := cleaned + 1;
        } else {
          last, i := a, i + 1;
        }
        a, j := next, j + 1;
      }
      SweptAll(ics0, orig, why, live, i, j);
      any := cleaned > 0;
      CleanedNone(ics0, orig, live, connectId);
      forall a: nat {
        CleanStays(ics0, orig, live, connectId, a);
      }
    }

    /** The time a context was last seen alive. */
    method Touch(a: nat, now: int)
      requires Valid() && a < |ics|
      modifies this`ics
      ensures Valid() && ics == old(ics)[a := old(ics)[a].(execTime := now)]
    {
      RecordSet(single, Contexts(), ImContexts(), ic, icp, a, ics[a].(execTime := now),
                Contexts().(ics := ics[a := ics[a].(execTime := now)]));
      ics := ics[a := ics[a].(execTime := now)];
    }

    /** check_ic_exist at one context: whether it goes; one that stays may be marked as seen. */
    method LookAt(a: nat, ref: nat, now: int, gone: set<int>) returns (delete: bool)
      requires Valid() && a < |ics| && ref < |ics|
      modifies this`ics
      ensures Valid() && delete == Leaves(Stale(ref, old(ics)[ref].focusWin, now, gone), a, old(ics)[a])
      ensures |ics| == |old(ics)| && ics == old(ics)[a := old(ics)[a].(execTime := ics[a].execTime)]
      ensures OnlyTimes(old(ics), ics) && ics[a].execTime == TimeSeen(ref, old(ics)[ref].focusWin, now, a, old(ics)[a])
    {
      delete := false;
      if a == ref {
        Touch(a, now);
      } else if ics[a].focusWin != 0 && ics[a].focusWin == ics[ref].focusWin {
        delete := true;
      } else if now - ics[a].execTime > IC_IDLE_TIME && ics[a].clientWin != 0 {
        Touch(a, now);
        delete := ics[a].clientWin in gone;
      }
    }

    /** The walk of check_ic_exist at one context, the one at i of the list and at j of the list at the start. */
    method SweepAt(a: nat, last: int, ref: nat, now: int, gone: set<int>, ghost ics0: seq<Ic>, ghost orig: seq<nat>, ghost j: nat, ghost i: nat)
      returns (delete: bool, next: int)
      requires Valid() && OnlyTimes(ics0, ics) && Untouched(ics0, ics, orig, j, ref, now) && j < |orig| && a == orig[j] && ref < |ics0|
      requires i < |live| && live[i] == a && last == NodeAt(live, i - 1)
      modifies this
      ensures Valid() && OnlyTimes(ics0, ics) && Untouched(ics0, ics, orig, j + 1, ref, now)
      ensures a < |ics0| && delete == Leaves(Stale(ref, ics0[ref].focusWin, now, gone), a, ics0[a])
      ensures live == if delete then Without(old(live), i) else old(live)
      ensures next == NodeAt(live, if delete then i else i + 1) && (delete ==> last == NodeAt(live, i - 1))
      ensures if delete then ic == LetGo(old(ic), a) && icp == LetGo(old(icp), a) else ic == old(ic) && icp == old(icp)
    {
      IcNext(Contexts(), i);
      LeavesSame(ics0, ics, orig, j, ref, now, gone);
      ghost var before := ics;
      delete := LookAt(a, ref, now, gone);
      OnlyTimesTwice(ics0, before, ics);
      TouchedOne(ics0, before, ics, orig, j, a, ref, now);
      if delete {
        ghost var touched := ics;
        next := DeleteAndNext(a, last, i);
        OnlyTimesTwice(ics0, touched, ics);
        LinkedOnly(ics0, touched, ics, orig, j + 1, ref, now);
      } else {
        IcNext(Contexts(), i);
        next := ics[a].next;
      }
    }

    /** check_ic_exist, the walk: contexts that share the window of ref or have been idle and lost their window go. */
    method SweepStale(ref: nat, now: int, gone: set<int>)
      requires Valid() && ref < |ics|
      modifies this
      ensures Valid() && OnlyTimes(old(ics), ics) && Within(old(live), |old(ics)|)
      ensures live == Staying(old(ics), old(live), Stale(ref, old(ics)[ref].focusWin, now, gone))
      ensures forall a: nat {:trigger a in live} :: a in live <==>
        && a in old(live)
        && (a != ref ==>
              && (old(ics)[a].focusWin == 0 || old(ics)[a].focusWin != old(ics)[ref].focusWin)
              && (now - old(ics)[a].execTime <= IC_IDLE_TIME || old(ics)[a].clientWin == 0 || old(ics)[a].clientWin !in gone))
      ensures forall a: nat {:trigger a in live} :: a in live ==>
        ics[a].execTime == if a == ref || (now - old(ics)[a].execTime > IC_IDLE_TIME && old(ics)[a].clientWin != 0) then now
                           else old(ics)[a].execTime
      ensures StillFocus(old(ic), live, ic) && StillFocus(old(icp), live, icp)
    {
      IcHeads(Contexts());
      ghost var why, orig, ics0 := Stale(ref, ics[ref].focusWin, now, gone), live, ics;
      var a, last := icList, NULL;
      ghost var i: nat, j: nat := 0, 0;
      SweptNone(ics0, orig, why);
      LiveDistinct(Contexts());
      StillFocusAll(live, ic);
      StillFocusAll(live, icp);
      while a != NULL
        invariant Valid() && OnlyTimes(ics0, ics) && Sweeping(ics0, orig, why, j, live, i) && Untouched(ics0, ics, orig, j, ref, now)
        invariant a == NodeAt(live, i) && last == NodeAt(live, i - 1)
        invariant StillFocus(old(ic), live, ic) && StillFocus(old(icp), live, icp)
        decreases |orig| - j
      {
        SweptOne(ics0, orig, why, j, live, i);
        StillFocusOn(i, old(ic), old(icp));
        var delete, next := SweepAt(a, last, ref, now, gone, ics0, orig, j, i);
        if !delete {
          last, i := a, i + 1;
        }
        a, j := next, j + 1;
      }
      SweptAll(ics0, orig, why, live, i, j);
      forall a: nat {
        StaleStays(ics0, orig, live, ref, now, gone, a);
      }
      forall a: nat | a in live {
        StaleSeen(ics0, ics, orig, live, ref, now, gone, a);
      }
    }

    /** check_ic_exist: nothing for an unknown context, or if the last walk was not long ago; otherwise the walk, and its
        time is kept. ref is the context that was walked for. */
    method CheckIcExist(icid: int, lastCheck: int, now: int, gone: set<int>) returns (checked: int, ref: int)
      requires Valid()
      modifies this
      ensures Valid()
      ensures ref == NULL ==>
        && checked == lastCheck && unchanged(this)
        && (now - lastCheck <= TIMECHECK_STEP || forall i :: 0 <= i < |live| ==> live[i] < |ics| && ics[live[i]].id != icid)
      ensures ref != NULL ==>
        && checked == now && now - lastCheck > TIMECHECK_STEP
        && 0 <= ref < |old(ics)| && ref in old(live) && old(ics)[ref].id == icid && Within(old(live), |old(ics)|)
        && forall a: nat {:trigger a in live} :: a in live <==>
             && a in old(live)
             && (a != ref ==>
                   && (old(ics)[a].focusWin == 0 || old(ics)[a].focusWin != old(ics)[ref].focusWin)
                   && (now - old(ics)[a].execTime <= IC_IDLE_TIME || old(ics)[a].clientWin == 0 || old(ics)[a].clientWin !in gone))
    {
      IcHeads(Contexts());
      ref := NULL;
      if icid >= 0 {
        ref := IcFind(icid);
      }
      if ref == NULL || now - lastCheck <= TIMECHECK_STEP {
        return lastCheck, NULL;
      }
      SweepStale(ref, now, gone);
      checked := now;
    }

    /** xim_set_focus_handler, as far as it concerns the registry: the IM context is attached to the context in focus, unless
        that is marked in focus already. */
    method FocusIn(id: nat) returns (ok: bool, found: int)
      requires Valid()
      modifies this`ics, this`ic, this`imcs
      ensures Valid() && ok == (found != NULL) && Found(old(ics), live, id, found)
      ensures ok && !old(ics[found].focus) ==>
        ics == old(ics)[found := old(ics[found]).(focus := true)] && ic == found && 0 <= ics[found].imc < |imcs| && imcs[ics[found].imc].icid == id
      ensures !ok || old(ics[found].focus) ==> ics == old(ics) && imcs == old(imcs) && ic == old(ic)
      ensures ok ==> (ic == found <==> !old(ics[found].focus) || old(ic) == found)
    {
      found := IcFind(id);
      if found == NULL {
        return false, found;
      }
      ok := true;
      if ics[found].focus {
        return;
      }
      AttachedAgain(single, Contexts(), ImContexts(), found, id);
      imcs := imcs[ics[found].imc := imcs[ics[found].imc].(icid := id)];
      Mark(found, true);
      ic := found;
    }

    /** xim_unset_focus_handler: a context that loses the focus is remembered, if it was marked. */
    method FocusOut(id: nat) returns (ok: bool, found: int)
      requires Valid()
      modifies this`ics, this`icp
      ensures Valid() && ok == (found != NULL) && Found(old(ics), live, id, found)
      ensures ok && old(ics[found].focus) ==> ics == old(ics)[found := old(ics[found]).(focus := false)] && icp == found
      ensures !ok || !old(ics[found].focus) ==> ics == old(ics) && icp == old(icp)
    {
      found := IcFind(id);
      ok := found != NULL;
      if ok && ics[found].focus {
        Mark(found, false);
        icp := found;
      }
    }

    method Mark(a: nat, focus: bool)
      requires Valid() && a < |ics|
      modifies this`ics
      ensures Valid() && ics == old(ics)[a := old(ics[a]).(focus := focus)]
    {
      RecordSet(single, Contexts(), ImContexts(), ic, icp, a, ics[a].(focus := focus), Contexts().(ics := ics[a := ics[a].(focus := focus)]));
      ics := ics[a := ics[a].(focus := focus)];
    }
  }

  /** a is a context in use with this id, or there is none. */
  ghost predicate Found(ics: seq<Ic>, live: seq<nat>, id: nat, a: int) {
    if a != NULL then 0 <= a < |ics| && a in live && ics[a].id == id
    else forall i :: 0 <= i < |live| ==> live[i] < |ics| && ics[live[i]].id != id
  }

  /** The times of the contexts walked over, and those not walked over yet, which are what they were. */
  ghost predicate Untouched(ics0: seq<Ic>, ics: seq<Ic>, orig: seq<nat>, j: nat, ref: nat, now: int) {
    |ics| == |ics0| && Within(orig, |ics0|) && Distinct(orig) && ref < |ics0| && forall m: int :: Asked(m, (j, ics)) ==>
      forall k :: 0 <= k < |orig| ==>
        ics[orig[k]].execTime ==
          if k < j then TimeSeen(ref, ics0[ref].focusWin, now, orig[k], ics0[orig[k]]) else ics0[orig[k]].execTime
  }

  /** check_ic_exist takes now as the time of the reference and of an idle context whose window it looks at. */
  function TimeSeen(ref: nat, focusWin: int, now: int, a: nat, rec: Ic): int {
    if a == ref then now
    else if rec.focusWin != 0 && rec.focusWin == focusWin then rec.execTime
    else if now - rec.execTime > IC_IDLE_TIME && rec.clientWin != 0 then now else rec.execTime
  }

  lemma UntouchedAt(ics0: seq<Ic>, ics: seq<Ic>, orig: seq<nat>, j: nat, ref: nat, now: int)
    requires Untouched(ics0, ics, orig, j, ref, now) && j < |orig|
    ensures ics[orig[j]].execTime == ics0[orig[j]].execTime
  {
    assert Asked(0, (j, ics));
  }

  /** A context not walked over yet leaves now if it would have left at the start. */
  lemma LeavesSame(ics0: seq<Ic>, ics: seq<Ic>, orig: seq<nat>, j: nat, ref: nat, now: int, gone: set<int>)
    requires OnlyTimes(ics0, ics) && Untouched(ics0, ics, orig, j, ref, now) && j < |orig| && ref < |ics0|
    ensures orig[j] < |ics| && Leaves(Stale(ref, ics[ref].focusWin, now, gone), orig[j], ics[orig[j]]) ==
      Leaves(Stale(ref, ics0[ref].focusWin, now, gone), orig[j], ics0[orig[j]])
  {
    UntouchedAt(ics0, ics, orig, j, ref, now);
    OnlyTimesAt(ics0, ics, orig[j]);
    OnlyTimesAt(ics0, ics, ref);
  }

  lemma TouchedOne(ics0: seq<Ic>, before: seq<Ic>, after: seq<Ic>, orig: seq<nat>, j: nat, a: nat, ref: nat, now: int)
    requires Untouched(ics0, before, orig, j, ref, now) && j < |orig| && a == orig[j] && |after| == |before| && a < |after|
    requires after == before[a := before[a].(execTime := after[a].execTime)] && OnlyTimes(ics0, before)
    requires after[a].execTime == TimeSeen(ref, before[ref].focusWin, now, a, before[a])
    ensures Untouched(ics0, after, orig, j + 1, ref, now)
  {
    assert Asked(0, (j, before));
    OnlyTimesAt(ics0, before, a);
    OnlyTimesAt(ics0, before, ref);
  }

  lemma LinkedOnly(ics0: seq<Ic>, before: seq<Ic>, after: seq<Ic>, orig: seq<nat>, j: nat, ref: nat, now: int)
    requires Untouched(ics0, before, orig, j, ref, now) && OnlyLinks(before, after)
    ensures Untouched(ics0, after, orig, j, ref, now)
  {
    assert Asked(0, (j, before));
  }

  lemma LiveDistinct(s: IcStore)
    requires IcOk(s)
    ensures Distinct(s.live) && Within(s.live, |s.ics|)
  {
    assert Asked(0, s);
    OneOf(s.live, s.idle, |s.ics|);
  }

  /** Attaching the IM context of a context in use to it again. */
  lemma AttachedAgain(single: bool, s: IcStore, m: ImcStore, a: int, id: nat)
    requires IcOk(s) && ImcOk(m) && Attached(single, s.ics, m.imcs, s.live, m.ctxs, m.spare)
    requires 0 <= a < |s.ics| && a in s.live && s.ics[a].id == id
    ensures 0 <= s.ics[a].imc < |m.imcs|
    ensures var imc := s.ics[a].imc; var imcs := m.imcs[imc := m.imcs[imc].(icid := id)];
      ImcOk(m.(imcs := imcs)) && Attached(single, s.ics, imcs, s.live, m.ctxs, m.spare)
  {
    var i :| 0 <= i < |s.live| && s.live[i] == a;
    ContextsWithin(m);
    AttachedAnew(m, s.ics[a].imc, id);
    var imc := s.ics[a].imc;
    var imcs := m.imcs[imc := m.imcs[imc].(icid := id)];
    assert !single ==> imcs == m.imcs by {
      assert !single ==> m.imcs[m.ctxs[i]].icid == id;
    }
  }

  lemma ContextsWithin(m: ImcStore)
    requires ImcOk(m)
    ensures Within(m.ctxs, |m.imcs|)
  {
    assert Asked(0, m);
  }

  /** The IM context that goes with a context. */
  lemma OwnContext(single: bool, ics: seq<Ic>, imcs: seq<Imc>, live: seq<nat>, ctxs: seq<nat>, spare: seq<nat>, i: nat, ics': seq<Ic>)
    requires Attached(single, ics, imcs, live, ctxs, spare) && i < |live| && OnlyLinks(ics, ics')
    ensures live[i] < |ics'| && (!single ==> i < |ctxs| && 0 <= ics'[live[i]].imc == ctxs[i])
  {
  }

  lemma FocusCleared(live: seq<nat>, i: nat, x: int)
    requires i < |live| && InFocus(live, x)
    ensures InFocus(Without(live, i), if x == live[i] then NULL else x)
  {
    if x != live[i] {
      FocusKept(live, i, x);
    }
  }

  /** A record taken, the others left as they were. */
  ghost predicate Taking(s: IcStore, rec: nat, id: nat, cleared: seq<Ic>, icFree: int, idle: seq<nat>, icid: nat) {
    && |s.ics| <= |cleared| && (forall a :: 0 <= a < |s.ics| && a != rec ==> cleared[a] == s.ics[a])
    && if s.icFree != NULL then
         && s.idle != [] && rec == s.icFree < |s.ics| == |cleared| && id == s.ics[rec].id
         && icFree == s.ics[rec].next && idle == s.idle[1..] && icid == s.icid
       else
         && rec == |s.ics| == |cleared| - 1 && id == NextId(s.icid)
         && icFree == s.icFree && idle == s.idle && icid == id
  }

  lemma NewIcOk(single: bool, s: IcStore, m: ImcStore, ic: int, icp: int, rec: nat, new_: Ic, cleared: seq<Ic>, t: IcStore, m': ImcStore)
    requires RegistryOk(single, s, m, ic, icp) && ImcOk(m')
    requires rec < |cleared| && Taking(s, rec, new_.id, cleared, t.icFree, t.idle, t.icid)
    requires new_ == Ic(new_.id, 0, new_.imc, s.icList, 0, 0, 0, false) && 0 <= new_.imc < |m'.imcs|
    requires t == IcStore(cleared[rec := new_], rec, t.icFree, [rec] + s.live, t.idle, t.icid)
    requires
      if single then m'.ctxs == [new_.imc] && m'.spare == [] && (m.ctxs != [] ==> m'.ctxs == m.ctxs)
      else
        && m'.ctxs == [new_.imc] + m.ctxs && new_.imc !in m.ctxs && SameIds(m.imcs, m'.imcs, new_.imc)
        && m'.imcs[new_.imc].id == m'.imcs[new_.imc].icid == new_.id
    ensures RegistryOk(single, t, m', ic, icp) && rec !in s.live
    ensures |s.ics| <= |t.ics| && forall a :: 0 <= a < |s.ics| && a != rec ==> t.ics[a] == s.ics[a]
    ensures rec < |s.ics| ==> t.ics[rec].id == s.ics[rec].id
  {
    IcTaken(s, new_.id, new_.imc, rec, cleared, t);
    AttachedNew(single, s.ics, m.imcs, s.live, m.ctxs, m.spare, rec, new_.imc, t.ics, m'.imcs, m'.ctxs, m'.spare);
    FocusMore(s.live, rec, ic);
    FocusMore(s.live, rec, icp);
  }

  /** The steps of new_IC on the contexts. */
  lemma IcTaken(s: IcStore, id: nat, imc: int, rec: nat, cleared: seq<Ic>, t: IcStore)
    requires IcOk(s) && rec < |cleared| && Taking(s, rec, id, cleared, t.icFree, t.idle, t.icid)
    requires t == IcStore(cleared[rec := Ic(id, 0, imc, s.icList, 0, 0, 0, false)], rec, t.icFree, [rec] + s.live, t.idle, t.icid)
    ensures IcOk(t) && rec !in s.live
  {
    IcHeads(s);
    var new_ := Ic(id, 0, imc, s.icList, 0, 0, 0, false);
    if s.icFree != NULL {
      assert t.ics == s.ics[rec := new_];
      IcReused(s, new_, t);
    } else {
      assert t.ics == s.ics + [new_];
      IcMade(s, new_, t);
    }
  }

  /** The heads of the two lists are different records. */
  lemma FrontApart(m: ImcStore)
    requires ImcOk(m)
    ensures m.imcList == NodeAt(m.ctxs, 0) && m.imcFree == NodeAt(m.spare, 0)
    ensures m.imcList == NULL || 0 <= m.imcList < |m.imcs|
    ensures m.imcFree == NULL || (0 <= m.imcFree < |m.imcs| && m.imcFree != m.imcList)
  {
    assert Asked(0, m);
    OneOf(m.ctxs, m.spare, |m.imcs|);
    if m.ctxs != [] && m.spare != [] {
      assert m.ctxs[0] in m.ctxs && m.spare[0] in m.spare;
    }
  }

  /** The steps of new_IMC on a cleared record put it in front. */
  lemma Steps(store: seq<Imc>, cleared: seq<Imc>, list: int, a: nat, icid: nat)
    requires a < |store| && (list == NULL || (0 <= list < |store| && list != a)) && cleared == store[a := Imc(0, 0, NULL, NULL)]
    ensures var i1 := if list != NULL then cleared[list := cleared[list].(prev := a)] else cleared;
      var i2 := i1[a := i1[a].(next := list)];
      var i3 := i2[a := i2[a].(id := icid)];
      i3[a := i3[a].(icid := icid)] == InFront(store, list, a, icid)
  {
  }

  /** The one context attached to another input context. */
  lemma AttachedAnew(m: ImcStore, imc: nat, newIcid: nat)
    requires ImcOk(m) && imc < |m.imcs|
    ensures ImcOk(m.(imcs := m.imcs[imc := m.imcs[imc].(icid := newIcid)]))
  {
    assert Asked(0, m);
    assert ImcNexts(m.imcs[imc := m.imcs[imc].(icid := newIcid)]) == ImcNexts(m.imcs);
  }
}
