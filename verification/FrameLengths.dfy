/** The lengths of the byte strings of a frame stand in the frame: a reader takes them from the
    numbers it has read (src/lib/IMdkit/i18nPtHdr.c, GetToken then SetSize). */
module FrameLengths {
  import opened Sealed
  import opened FrameTemplate
  import opened FrameCursor
  import opened FrameTokens
  import opened FrameEncode
  import opened FrameElement
  import opened FrameDecode

  /** A number, and not one that a list repeats. */
  predicate Number(t: Template, i: int) {
    0 <= i < |t| && t[i].Bits? && (i > 0 ==> !t[i - 1].Iter?)
  }

  /** The records from a on, up to b, are numbers. */
  predicate Numbers(t: Template, a: int, b: int) {
    0 <= a <= b < |t| && forall k :: a <= k < b ==> Number(t, k)
  }

  /** Every byte string has its length `back` records before it, and only numbers in between. */
  predicate Lengthed(t: Template, back: nat)
    decreases t
  {
    && 0 < back
    && (forall i :: 0 <= i < |t| ==> (t[i].Barray? ==> Numbers(t, i - back, i)))
    && (forall i :: 0 <= i < |t| ==> (t[i].PtrItem? ==> Lengthed(t[i].sub, back)))
  }

  /** The number `back` records before record i, as it arrives, is the length of the byte string there. */
  predicate Tells(t: Template, back: nat, d: seq<Field>, i: int) {
    && 0 <= i - back < |t| && t[i - back].Bits?
    && NumOf(FieldAt(d, i - back)) % Limit(t[i - back].width) == |BytesOf(FieldAt(d, i))|
  }

  /** The lengths the document carries are those of its byte strings. */
  ghost predicate Honest(t: Template, back: nat, d: seq<Field>)
    decreases t
  {
    forall i :: Boundary(t, i) ==>
      && (t[i].Barray? ==> Tells(t, back, d, i))
      && (Points(t, i) ==> Honest(t[i + 1].sub, back, FieldsOf(FieldAt(d, i))))
      && (t[i].Iter? && Points(t, i + 1) ==>
           forall k :: 0 <= k < |ElemsOf(FieldAt(d, i))| ==> Honest(t[i + 2].sub, back, FieldsOf(ElemsOf(FieldAt(d, i))[k])))
  }

  /** Where the lengths of byte strings stand, and that they are right. */
  ghost predicate Told(t: Template, back: nat, d: seq<Field>) {
    forall n: int :: Asked(n, (back, d)) ==> Lengthed(t, back) && Honest(t, back, d)
  }

  /** So they are in each frame of a list, */
  lemma ElementTold(t: Template, back: nat, d: seq<Field>, p: int, k: int)
    requires Told(t, back, d) && Boundary(t, p) && t[p].Iter? && 0 <= k < |ElemsOf(FieldAt(d, p))|
    ensures Points(t, p + 1) ==> Told(t[p + 2].sub, back, FieldsOf(ElemsOf(FieldAt(d, p))[k]))
  {
    assert Asked(0, (back, d));
  }

  /** and in an inner frame. */
  lemma InnerTold(t: Template, back: nat, d: seq<Field>, i: int)
    requires Told(t, back, d) && Boundary(t, i) && Points(t, i)
    ensures Told(t[i + 1].sub, back, FieldsOf(FieldAt(d, i)))
  {
    assert Asked(0, (back, d));
  }

  /** The last data got are the numbers before record i, as far back as there are only numbers. */
  ghost predicate Recent(t: Template, d: seq<Field>, i: int, got: seq<Datum>) {
    forall n: int :: Asked(n, got) ==> forall k :: 0 <= k < i && Numbers(t, k, i) ==> IsRecent(t, d, k, i - k, got)
  }

  /** The datum m from the end of got is the number at record k. */
  ghost predicate IsRecent(t: Template, d: seq<Field>, k: int, m: int, got: seq<Datum>) {
    Number(t, k) && 0 < m <= |got| && got[|got| - m].num == NumOf(FieldAt(d, k)) % Limit(t[k].width)
  }

  lemma RecentStep(t: Template, d: seq<Field>, i: int, got: seq<Datum>, x: Datum)
    requires Recent(t, d, i, got) && i < |t| - 1 && Simple(t, i) && !t[i].Padding? && x == Seen(TokenAt(t, d, i))
    ensures Recent(t, d, i + 1, got + [x])
  {
    assert Asked(0, got);
    var i', got' := i + 1, got + [x];
    forall k | 0 <= k < i' && Numbers(t, k, i') ensures IsRecent(t, d, k, i' - k, got') {
      assert Number(t, i) && Number(t, k);
      if k < i {
        assert Numbers(t, k, i);
      }
    }
  }

  /** Behind anything but a number there is nothing to look back at. */
  lemma RecentNone(t: Template, d: seq<Field>, i: int, got: seq<Datum>)
    requires !Number(t, i - 1)
    ensures Recent(t, d, i, got)
  {
    forall k | 0 <= k < i ensures !Numbers(t, k, i) {
      assert !Number(t, i - 1);
    }
  }

  /** The length of the byte string at record i is among the data got. */
  lemma LengthGot(t: Template, back: nat, d: seq<Field>, i: int, got: seq<Datum>)
    requires Told(t, back, d) && Recent(t, d, i, got) && Boundary(t, i) && t[i].Barray?
    ensures 0 < back <= |got| && got[|got| - back].num == |BytesOf(FieldAt(d, i))|
  {
    assert Asked(0, (back, d)) && Asked(0, got);
    assert Numbers(t, i - back, i) && IsRecent(t, d, i - back, back, got) && Tells(t, back, d, i);
  }
}
