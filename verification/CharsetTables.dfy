/** The tables of a character set and the conversions over them (src/lib/charset/charset.c). */
module CharsetTables {

  import opened ByteRanges
  import opened Charset
  import opened CharsetText
  import opened Sealed

  /** cs_seg2_t: second bytes, the places before them, and their number, 0 before it is counted. */
  datatype Seg2 = Seg2(enc2a: Byte, enc2b: Byte, accu2: int, cnt2: int)

  /** cs_seg_t: first bytes, the first code, the number of codes and of places in a row, and the second bytes. */
  datatype Seg = Seg(enc1a: Byte, enc1b: Byte, start: int, cnt: int, cnt2: int, seg2: seq<Seg2>)

  function Entry(p: Plane, j: nat): Seg2
    requires j < |p|
  {
    Seg2(p[j].first, p[j].last, Accumulated(p, j), Size(p[j]))
  }

  ghost predicate IsTable(t: seq<Seg2>, p: Plane) {
    |t| == |p| && forall n :: Asked(n, t) ==> forall j :: 0 <= j < |p| ==> t[j] == Entry(p, j)
  }

  ghost predicate IsSeg(r: Seg, segs: seq<Segment>, s: nat)
    requires s < |segs|
  {
    && r.enc1a == segs[s].first.first && r.enc1b == segs[s].first.last && r.start == Start(segs, s)
    && r.cnt == Characters(segs[s]) && r.cnt2 == Cells(segs[s]) && IsTable(r.seg2, segs[s].table)
  }

  ghost predicate IsSet(recs: seq<Seg>, segs: seq<Segment>) {
    |recs| == |segs| && forall n :: Asked(n, recs) ==> forall s :: 0 <= s < |segs| ==> IsSeg(recs[s], segs, s)
  }

  /** n_chcoded: the number of codes. */
  ghost predicate IsTotal(n: int, segs: seq<Segment>) {
    n == Start(segs, |segs|) - 1
  }

  lemma EntryAt(t: seq<Seg2>, p: Plane, j: nat)
    requires IsTable(t, p) && j < |p|
    ensures t[j] == Entry(p, j)
  {
    assert Asked(0, t);
  }

  lemma RecAt(recs: seq<Seg>, segs: seq<Segment>, s: nat)
    requires IsSet(recs, segs) && s < |segs|
    ensures IsSeg(recs[s], segs, s)
  {
    assert Asked(0, recs);
  }

  // cs2_init.

  /** A table of second bytes, counted already or not: tables are shared. */
  ghost predicate Raw(t: seq<Seg2>, p: Plane) {
    |t| == |p| && forall j :: 0 <= j < |p| ==>
      t[j].enc2a == p[j].first && t[j].enc2b == p[j].last && (t[j].cnt2 == 0 || t[j] == Entry(p, j))
  }

  method InitTable(raw: seq<Seg2>, ghost p: Plane) returns (t: seq<Seg2>, accu2: int)
    requires Raw(raw, p)
    ensures IsTable(t, p) && accu2 == Count(p)
  {
    t, accu2 := [], 0;
    var j := 0;
    while j < |raw|
      invariant 0 <= j <= |raw| && accu2 == Accumulated(p, j)
      invariant |t| == j && forall k :: 0 <= k < j ==> t[k] == Entry(p, k)
    {
      var sg2 := raw[j];
      if sg2.cnt2 == 0 {
        sg2 := sg2.(cnt2 := sg2.enc2b - sg2.enc2a + 1, accu2 := accu2);
      }
      t := t + [sg2];
      accu2 := accu2 + sg2.cnt2;
      j := j + 1;
    }
  }

  /** The tables as they are written down: first bytes, and a table of second bytes. */
  ghost predicate RawSeg(r: Seg, g: Segment) {
    r.enc1a == g.first.first && r.enc1b == g.first.last && Raw(r.seg2, g.table)
  }

  lemma RecAdded(recs: seq<Seg>, segs: seq<Segment>, i: nat, r: Seg, recs': seq<Seg>)
    requires i < |segs| && |recs| == i && (forall s :: 0 <= s < i ==> IsSeg(recs[s], segs, s)) && IsSeg(r, segs, i) && recs' == recs + [r]
    ensures forall s :: 0 <= s <= i ==> IsSeg(recs'[s], segs, s)
  {
  }

  method Init(raw: seq<Seg>, ghost segs: seq<Segment>) returns (recs: seq<Seg>, nChcoded: int)
    requires SegsOk(segs) && |raw| == |segs| && forall s :: 0 <= s < |raw| ==> RawSeg(raw[s], segs[s])
    ensures IsSet(recs, segs) && IsTotal(nChcoded, segs)
  {
    recs, nChcoded := [], 0;
    var i := 0;
    while i < |raw|
      invariant 0 <= i <= |raw| && nChcoded == Start(segs, i) - 1
      invariant |recs| == i && forall s :: 0 <= s < i ==> IsSeg(recs[s], segs, s)
    {
      SegAt(segs, i);
      var seg2, accu2 := InitTable(raw[i].seg2, segs[i].table);
      var cnt1 := raw[i].enc1b - raw[i].enc1a + 1;
      TimesIs(cnt1, accu2);
      var r := Seg(raw[i].enc1a, raw[i].enc1b, nChcoded + 1, cnt1 * accu2, accu2, seg2);
      RecAdded(recs, segs, i, r, recs + [r]);
      recs := recs + [r];
      nChcoded := nChcoded + r.cnt;
      i := i + 1;
    }
  }

  // Searching.

  function CmpLnr1(key: int, r: Seg): int {
    if key < r.start then -1 else if key >= r.start + r.cnt then 1 else 0
  }

  function CmpLnr2(key: int, r: Seg2): int {
    if key < r.accu2 then -1 else if key >= r.accu2 + r.cnt2 then 1 else 0
  }

  function CmpMbs1(key: int, r: Seg): int {
    if key < r.enc1a then -1 else if key > r.enc1b then 1 else 0
  }

  function CmpMbs2(key: int, r: Seg2): int {
    if key < r.enc2a then -1 else if key > r.enc2b then 1 else 0
  }

  /** bsearch of the C library: the entry that compares equal, or -1. */
  method Bsearch<T>(arr: seq<T>, cmp: T -> int) returns (i: int)
    requires forall a, b :: 0 <= a < b < |arr| && cmp(arr[a]) <= 0 ==> cmp(arr[b]) < 0
    ensures -1 <= i < |arr| && (i >= 0 ==> cmp(arr[i]) == 0)
    ensures i == -1 ==> forall a :: 0 <= a < |arr| ==> cmp(arr[a]) != 0
  {
    var lo, hi := 0, |arr|;
    while lo < hi
      invariant 0 <= lo <= hi <= |arr|
      invariant forall a :: 0 <= a < lo ==> cmp(arr[a]) > 0
      invariant forall a :: hi <= a < |arr| ==> cmp(arr[a]) < 0
    {
      var mid := (lo + hi) / 2;
      var c := cmp(arr[mid]);
      if c == 0 {
        return mid;
      } else if c < 0 {
        hi := mid;
      } else {
        lo := mid + 1;
      }
    }
    return -1;
  }

  /** The segment of a code. */
  method FindCode(recs: seq<Seg>, w: int, ghost segs: seq<Segment>) returns (i: int)
    requires SegsOk(segs) && IsSet(recs, segs) && IsCode(segs, w)
    ensures i == SegOf(segs, w, 0) && 0 <= i < |recs|
  {
    forall a, b | 0 <= a < b < |recs| && CmpLnr1(w, recs[a]) <= 0 ensures CmpLnr1(w, recs[b]) < 0 {
      RecAt(recs, segs, a);
      RecAt(recs, segs, b);
      StartGrows(segs, a, b);
    }
    i := Bsearch(recs, r => CmpLnr1(w, r));
    SegOfFound(segs, w, 0);
    var s := SegOf(segs, w, 0);
    RecAt(recs, segs, s);
    if i >= 0 {
      RecAt(recs, segs, i);
      SegOfIs(segs, w, 0, i);
    }
  }

  /** The segment of a first byte, or -1. */
  method FindByte(recs: seq<Seg>, b: Byte, ghost segs: seq<Segment>) returns (i: int)
    requires SegsOk(segs) && IsSet(recs, segs)
    ensures -1 <= i < |recs| && SegWith(segs, b, 0) == (if i < 0 then |recs| else i)
  {
    forall a, c | 0 <= a < c < |recs| && CmpMbs1(b, recs[a]) <= 0 ensures CmpMbs1(b, recs[c]) < 0 {
      RecAt(recs, segs, a);
      RecAt(recs, segs, c);
      assert Asked(0, segs);
    }
    i := Bsearch(recs, r => CmpMbs1(b, r));
    if i >= 0 {
      RecAt(recs, segs, i);
      SegWithIs(segs, b, i);
    } else if SegWith(segs, b, 0) < |segs| {
      RecAt(recs, segs, SegWith(segs, b, 0));
    }
  }

  /** The range a place falls into, or -1. */
  method FindPlace(t: seq<Seg2>, place: int, ghost p: Plane) returns (i: int)
    requires RangesOk(p) && IsTable(t, p) && 0 <= place
    ensures -1 <= i < |t| && (i >= 0 <==> place < Count(p)) && (i >= 0 ==> i == Slot(p, place, 1))
  {
    forall a, b | 0 <= a < b < |t| && CmpLnr2(place, t[a]) <= 0 ensures CmpLnr2(place, t[b]) < 0 {
      EntryAt(t, p, a);
      EntryAt(t, p, b);
      AccumulatedGrows(p, a, b);
    }
    i := Bsearch(t, r => CmpLnr2(place, r));
    if i >= 0 {
      EntryAt(t, p, i);
      AccumulatedGrows(p, i + 1, |p|);
      SlotIs(p, place, 1, i);
    } else if place < Count(p) {
      SlotFound(p, place, 1);
      EntryAt(t, p, Slot(p, place, 1));
    }
  }

  /** The range a second byte is in, or -1. */
  method FindSecond(t: seq<Seg2>, b: Byte, ghost p: Plane) returns (i: int)
    requires Ascending(p) && IsTable(t, p)
    ensures -1 <= i < |t| && Holder(p, b, 0) == if i < 0 then |t| else i
  {
    forall a, c | 0 <= a < c < |t| && CmpMbs2(b, t[a]) <= 0 ensures CmpMbs2(b, t[c]) < 0 {
      EntryAt(t, p, a);
      EntryAt(t, p, c);
    }
    i := Bsearch(t, r => CmpMbs2(b, r));
    var h := Holder(p, b, 0);
    if i >= 0 {
      EntryAt(t, p, i);
      HolderIs(p, b, i);
    } else if h < |p| {
      EntryAt(t, p, h);
    }
  }

  lemma HolderIs(p: Plane, b: Byte, i: nat)
    requires RangesOk(p) && i < |p| && In(p[i], b)
    ensures Holder(p, b, 0) == i
  {
    var h := Holder(p, b, 0);
    assert h <= i;
  }

  // One character.

  lemma {:induction false} Divided(segs: seq<Segment>, w: int, s: nat, row: int, place: int)
    requires SegsOk(segs) && IsCode(segs, w) && s == SegOf(segs, w, 0) && s < |segs| && Cells(segs[s]) > 0
    requires row == (w - Start(segs, s)) / Cells(segs[s]) && place == (w - Start(segs, s)) % Cells(segs[s])
    ensures row == Row(segs, w, s) && place == Place(segs, w, s) >= 0
  {
    Lies(segs, w, s);
    TimesGrows(0, Row(segs, w, s) + 1, Cells(segs[s]));
    DividedBy(w - Start(segs, s), Cells(segs[s]), row, place);
  }

  lemma {:induction false} DividedBy(x: nat, base: nat, q: int, low: int)
    requires base > 0 && q == x / base && low == x % base
    ensures q == Quotient(x, base) && low == x - Times(Quotient(x, base), base)
  {
    QuotientIs(x, base);
    DivMod(x, base);
    TimesIs(q, base);
  }

  /** The bytes of a linear code. */
  method EncodeOne(recs: seq<Seg>, nChcoded: int, w: nat, ghost segs: seq<Segment>) returns (r: Option<(int, int)>)
    requires SegsOk(segs) && IsSet(recs, segs) && IsTotal(nChcoded, segs) && w > 0
    ensures r == if IsCode(segs, w) then Encode(segs, w) else None
  {
    if w > nChcoded {
      return None;
    }
    var i := FindCode(recs, w, segs);
    RecAt(recs, segs, i);
    RecAt(recs, segs, 0);
    SegAt(segs, 0);
    SegAt(segs, i);
    CellsPositive(segs[i]);
    var cseg := recs[i];
    var place, row := (w - cseg.start) % cseg.cnt2, (w - cseg.start) / cseg.cnt2;
    Divided(segs, w, i, row, place);
    var j := FindPlace(recs[0].seg2, place, segs[0].table);
    if j < 0 {
      return None;
    }
    EntryAt(recs[0].seg2, segs[0].table, j);
    var cseg2 := recs[0].seg2[j];
    r := Some((row + cseg.enc1a, place + cseg2.enc2a - cseg2.accu2));
  }

  /** The range a second byte is looked up in: the only one compared if the segment has but one. */
  method FindLooked(recs: seq<Seg>, i: nat, b: Byte, ghost segs: seq<Segment>) returns (j: int)
    requires SegsOk(segs) && IsSet(recs, segs) && i < |recs|
    ensures -1 <= j < |Looked(segs, i)| && (j < 0 <==> !Has(Looked(segs, i), b)) && (j >= 0 ==> j == Holder(Looked(segs, i), b, 0))
  {
    RecAt(recs, segs, i);
    RecAt(recs, segs, 0);
    SegAt(segs, 0);
    if |recs[i].seg2| == 1 {
      EntryAt(recs[0].seg2, segs[0].table, 0);
      j := if CmpMbs2(b, recs[0].seg2[0]) != 0 then -1 else 0;
      assert segs[0].table[..1][0] == segs[0].table[0];
    } else {
      j := FindSecond(recs[0].seg2, b, segs[0].table);
    }
  }

  /** The linear code of two bytes. */
  method DecodeOne(recs: seq<Seg>, b0: Byte, b1: Byte, ghost segs: seq<Segment>) returns (r: Option<int>)
    requires SegsOk(segs) && IsSet(recs, segs)
    ensures r == Decode(segs, b0, b1)
  {
    var i := FindByte(recs, b0, segs);
    if i < 0 {
      return None;
    }
    var j := FindLooked(recs, i, b1, segs);
    if j < 0 {
      return None;
    }
    RecAt(recs, segs, i);
    RecAt(recs, segs, 0);
    EntryAt(recs[0].seg2, segs[0].table, j);
    var cseg, cseg2 := recs[i], recs[0].seg2[j];
    TimesIs(b0 - cseg.enc1a, cseg.cnt2);
    LookedDigit(segs, i, b1, j);
    r := Some((b0 - cseg.enc1a) * cseg.cnt2 + (b1 - cseg2.enc2a + cseg2.accu2) + cseg.start);
  }

  lemma LookedDigit(segs: seq<Segment>, i: nat, b: Byte, j: nat)
    requires SegsOk(segs) && i < |segs| && Has(Looked(segs, i), b) && j == Holder(Looked(segs, i), b, 0)
    ensures j < |segs[0].table| && Digit(Looked(segs, i), b) == b - segs[0].table[j].first + Accumulated(segs[0].table, j)
  {
    SameByte(segs, i, b);
    if Looked(segs, i) != segs[0].table {
      assert segs[0].table[..1][0] == segs[0].table[0];
    }
  }

  // Texts.

  /** The text converted so far, and what is to come. */
  ghost predicate SoFar(all: Run, done: seq<int>, rest: Run) {
    forall n :: Asked(n, done) ==> all == After(done, rest)
  }

  lemma SoFarStep(all: Run, done: seq<int>, head: seq<int>, rest: Run, done': seq<int>)
    requires SoFar(all, done, After(head, rest)) && done' == done + head
    ensures SoFar(all, done', rest)
  {
    assert Asked(0, done);
    assert done + (head + rest.out) == done' + rest.out;
  }

  lemma SoFarEnd(all: Run, done: seq<int>, rest: Run, done': seq<int>)
    requires SoFar(all, done, rest) && done' == done + rest.out
    ensures all == Run(rest.ok, done')
  {
    assert Asked(0, done);
  }

  /** cs2_lnr2mbs, with a buffer that has two bytes for each code. */
  method Lnr2Mbs(recs: seq<Seg>, nChcoded: int, wcs: seq<nat>, mblen: nat, ghost segs: seq<Segment>) returns (ret: int, mbs: seq<int>)
    requires SegsOk(segs) && IsSet(recs, segs) && IsTotal(nChcoded, segs)
    requires wcs != [] && 2 * |wcs| <= mblen && forall k :: 0 <= k < |wcs| ==> wcs[k] < 0x1_0000_0000
    ensures var all := Written(segs, wcs, 0); mbs == all.out && ret == if all.ok then |mbs| else -|mbs|
  {
    ghost var all := Written(segs, wcs, 0);
    mbs := [];
    var i := 0;
    while |mbs| < mblen && i < |wcs|
      invariant 0 <= i <= |wcs| && |mbs| <= 2 * i && SoFar(all, mbs, Written(segs, wcs, i))
    {
      var w := wcs[i];
      if w == 0 {
        SoFarEnd(all, mbs, Run(true, [0]), mbs + [0]);
        mbs := mbs + [0];
        return |mbs|, mbs;
      }
      var head := [];
      if w >= UINT32BIT {
        head := [(w - UINT32BIT) % 256];
      } else {
        var pair := EncodeOne(recs, nChcoded, w, segs);
        if pair.None? {
          SoFarEnd(all, mbs, Run(false, []), mbs);
          return -|mbs|, mbs;
        }
        head := [pair.value.0, pair.value.1];
      }
      assert One(segs, w) == Some(head);
      SoFarStep(all, mbs, head, Written(segs, wcs, i + 1), mbs + head);
      mbs := mbs + head;
      i := i + 1;
    }
    SoFarEnd(all, mbs, Run(true, []), mbs);
    ret := |mbs|;
  }

  /** cs2_mbs2lnr, with a buffer that has room for a code for each byte. */
  method Mbs2Lnr(recs: seq<Seg>, ms: seq<Byte>, wclen: nat, ghost segs: seq<Segment>) returns (ret: int, wcs: seq<int>)
    requires SegsOk(segs) && IsSet(recs, segs) && ms != [] && |ms| <= wclen
    ensures var all := Read(segs, ms, 0); wcs == all.out && ret == if all.ok then |wcs| else -|wcs|
  {
    ghost var all := Read(segs, ms, 0);
    wcs := [];
    var p := 0;
    while p < |ms| && |wcs| < wclen
      invariant 0 <= p <= |ms| && |wcs| <= p && SoFar(all, wcs, Read(segs, ms, p))
    {
      if ms[p] == 0 {
        SoFarEnd(all, wcs, Run(true, [0]), wcs + [0]);
        wcs := wcs + [0];
        return |wcs|, wcs;
      } else if ms[p] < 0x80 {
        SoFarStep(all, wcs, [UINT32BIT + ms[p]], Read(segs, ms, p + 1), wcs + [UINT32BIT + ms[p]]);
        wcs := wcs + [UINT32BIT + ms[p]];
        p := p + 1;
      } else {
        var code := DecodeOne(recs, ms[p], ByteAt(ms, p + 1), segs);
        if code.None? {
          SoFarEnd(all, wcs, Run(false, []), wcs);
          return -|wcs|, wcs;
        }
        DecodeBound(segs, ms[p], ByteAt(ms, p + 1));
        SoFarStep(all, wcs, [code.value], Read(segs, ms, p + 2), wcs + [code.value]);
        wcs := wcs + [code.value];
        p := p + 2;
      }
    }
    SoFarEnd(all, wcs, Run(true, []), wcs);
    ret := |wcs|;
  }
}
