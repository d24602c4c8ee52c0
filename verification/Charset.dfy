/** Two-byte character sets as segments: linear codes and bytes (src/lib/charset/charset.c). */
module Charset {

  import opened ByteRanges
  import opened Sealed

  datatype Option<T> = None | Some(value: T)

  /** The characters with a first byte in `first`; their second bytes are those of `table`. */
  datatype Segment = Segment(first: Range, table: Plane)

  predicate Ascending(p: Plane) {
    RangesOk(p) && forall i, j :: 0 <= i < j < |p| ==> p[i].last < p[j].first
  }

  predicate SegmentOk(g: Segment) {
    0x80 <= g.first.first <= g.first.last && Ascending(g.table)
  }

  /** The segments of a character set, ascending. */
  ghost predicate SegsOk(segs: seq<Segment>) {
    segs != [] && segs[0].table != [] && forall n :: Asked(n, segs) ==>
      && (forall s :: 0 <= s < |segs| ==> SegmentOk(segs[s]))
      && (forall s, t :: 0 <= s < t < |segs| ==> segs[s].first.last < segs[t].first.first)
  }

  lemma SegAt(segs: seq<Segment>, s: nat)
    requires SegsOk(segs) && s < |segs|
    ensures SegmentOk(segs[s])
  {
    assert Asked(0, segs);
  }

  // Linear codes: from 1 on, segment by segment, row by row.

  function Cells(g: Segment): int {
    Count(g.table)
  }

  function Characters(g: Segment): int {
    Times(Size(g.first), Cells(g))
  }

  /** The first code of segment n. */
  function Start(segs: seq<Segment>, n: nat): int
    requires n <= |segs|
  {
    if n == 0 then 1 else Start(segs, n - 1) + Characters(segs[n - 1])
  }

  predicate IsCode(segs: seq<Segment>, w: int) {
    1 <= w < Start(segs, |segs|)
  }

  /** The segment of a code, from segment s on. */
  function SegOf(segs: seq<Segment>, w: int, s: nat): (r: nat)
    requires s <= |segs|
    ensures s <= r <= |segs|
    decreases |segs| - s
  {
    if s == |segs| || w < Start(segs, s + 1) then s else SegOf(segs, w, s + 1)
  }

  /** The segment of a first byte, from segment s on. */
  function SegWith(segs: seq<Segment>, b: Byte, s: nat): (r: nat)
    requires s <= |segs|
    ensures s <= r <= |segs| && (r < |segs| ==> In(segs[r].first, b)) && forall i :: s <= i < r ==> !In(segs[i].first, b)
    decreases |segs| - s
  {
    if s == |segs| || In(segs[s].first, b) then s else SegWith(segs, b, s + 1)
  }

  /** The row of a code in its segment, and the place in the row. */
  function Row(segs: seq<Segment>, w: int, s: nat): int
    requires s < |segs|
  {
    Quotient(w - Start(segs, s), Cells(segs[s]))
  }

  function Place(segs: seq<Segment>, w: int, s: nat): int
    requires s < |segs|
  {
    w - Start(segs, s) - Times(Row(segs, w, s), Cells(segs[s]))
  }

  /** The second byte of a code is looked up in the table of the first segment, whatever the segment. */
  function Encode(segs: seq<Segment>, w: int): Option<(int, int)>
    requires segs != []
  {
    var s := SegOf(segs, w, 0);
    if s == |segs| || Place(segs, w, s) >= Count(segs[0].table) then None
    else Some((Row(segs, w, s) + segs[s].first.first, ByteOf(segs[0].table, Place(segs, w, s))))
  }

  /** And so is a second byte, but in its first range only if the segment has one range. */
  function Looked(segs: seq<Segment>, s: nat): Plane
    requires s < |segs| && segs[0].table != []
  {
    if |segs[s].table| == 1 then segs[0].table[..1] else segs[0].table
  }

  function Decode(segs: seq<Segment>, b0: Byte, b1: Byte): Option<int>
    requires segs != [] && segs[0].table != []
  {
    var s := SegWith(segs, b0, 0);
    if s == |segs| || !Has(Looked(segs, s), b1) then None
    else Some(Times(b0 - segs[s].first.first, Cells(segs[s])) + Digit(Looked(segs, s), b1) + Start(segs, s))
  }

  lemma CellsPositive(g: Segment)
    requires SegmentOk(g)
    ensures Cells(g) > 0 && Characters(g) >= Cells(g)
  {
    AccumulatedGrows(g.table, 0, |g.table|);
    TimesGrows(0, Size(g.first), Cells(g));
  }

  lemma {:induction false} StartGrows(segs: seq<Segment>, a: nat, b: nat)
    requires SegsOk(segs) && a <= b <= |segs|
    ensures 1 <= Start(segs, a) <= Start(segs, b) && (a < b ==> Start(segs, a) + Characters(segs[a]) <= Start(segs, b))
    decreases b
  {
    if b > 0 {
      SegAt(segs, b - 1);
      CellsPositive(segs[b - 1]);
      if a < b {
        StartGrows(segs, a, b - 1);
      } else {
        StartGrows(segs, b - 1, b - 1);
      }
    }
  }

  lemma {:induction false} SegOfIs(segs: seq<Segment>, w: int, s: nat, t: nat)
    requires SegsOk(segs) && s <= t < |segs| && Start(segs, t) <= w < Start(segs, t) + Characters(segs[t])
    ensures SegOf(segs, w, s) == t
    decreases |segs| - s
  {
    if s < t {
      StartGrows(segs, s + 1, t);
      SegOfIs(segs, w, s + 1, t);
    }
  }

  lemma {:induction false} SegOfFound(segs: seq<Segment>, w: int, s: nat)
    requires s < |segs| && Start(segs, s) <= w < Start(segs, |segs|)
    ensures var t := SegOf(segs, w, s); t < |segs| && Start(segs, t) <= w < Start(segs, t) + Characters(segs[t])
    decreases |segs| - s
  {
    if w >= Start(segs, s + 1) {
      SegOfFound(segs, w, s + 1);
    }
  }

  lemma SegWithIs(segs: seq<Segment>, b: Byte, t: nat)
    requires SegsOk(segs) && t < |segs| && In(segs[t].first, b)
    ensures SegWith(segs, b, 0) == t
  {
    var s := SegWith(segs, b, 0);
    assert Asked(0, segs);
  }

  /** Where a code lies. */
  lemma Lies(segs: seq<Segment>, w: int, s: nat)
    requires SegsOk(segs) && IsCode(segs, w) && s == SegOf(segs, w, 0)
    ensures s < |segs| && 0 <= Row(segs, w, s) < Size(segs[s].first) && 0 <= Place(segs, w, s) < Cells(segs[s])
    ensures w == Start(segs, s) + Place(segs, w, s) + Times(Row(segs, w, s), Cells(segs[s]))
  {
    SegOfFound(segs, w, 0);
    SegAt(segs, s);
    CellsPositive(segs[s]);
    QuotientWithin(w - Start(segs, s), Cells(segs[s]), Size(segs[s].first));
  }

  /** A place of a row of a segment is a code. */
  lemma IsThere(segs: seq<Segment>, s: nat, row: int, place: int, w: int)
    requires SegsOk(segs) && s < |segs| && 0 <= row < Size(segs[s].first) && 0 <= place < Cells(segs[s])
    requires w == Start(segs, s) + place + Times(row, Cells(segs[s]))
    ensures IsCode(segs, w) && SegOf(segs, w, 0) == s && Row(segs, w, s) == row && Place(segs, w, s) == place
  {
    QuotientOf(place, row, Cells(segs[s]));
    TimesGrows(row, Size(segs[s].first), Cells(segs[s]));
    StartGrows(segs, 0, s);
    StartGrows(segs, s, |segs|);
    SegOfIs(segs, w, 0, s);
  }

  lemma LookedOk(segs: seq<Segment>, s: nat)
    requires SegsOk(segs) && s < |segs|
    ensures RangesOk(Looked(segs, s)) && 0 < Count(Looked(segs, s)) <= Count(segs[0].table)
  {
    var t := segs[0].table;
    SegAt(segs, 0);
    OneRange(t);
    AccumulatedGrows(t, 0, 1);
    AccumulatedGrows(t, 1, |t|);
  }

  lemma OneRange(t: Plane)
    requires RangesOk(t)
    ensures RangesOk(t[..1]) && Count(t[..1]) == Accumulated(t, 1) == Size(t[0])
  {
    assert t[..1][..0] == t[..0];
    assert Accumulated(t[..1], 0) == 0;
  }

  /** A byte that the first table gives for a place is found where it is looked up if and only if the place is there. */
  lemma FoundAgain(segs: seq<Segment>, s: nat, place: int)
    requires SegsOk(segs) && s < |segs| && 0 <= place < Count(segs[0].table)
    ensures var b, p := ByteOf(segs[0].table, place), Looked(segs, s);
      && 0 < b < 256 && (Has(p, b) <==> place < Count(p)) && (Has(p, b) ==> Digit(p, b) == place)
  {
    var t := segs[0].table;
    SegAt(segs, 0);
    DigitOfByte(t, place);
    LookedOk(segs, s);
    if Looked(segs, s) != t {
      OneRange(t);
      var b := ByteOf(t, place);
      assert t[..1][0] == t[0];
      SlotFound(t, place, 1);
      AccumulatedGrows(t, 1, |t|);
      FirstOnly(t, b, place);
    }
  }

  lemma FirstOnly(t: Plane, b: Byte, place: int)
    requires RangesOk(t) && Has(t, b) && Digit(t, b) == place >= 0
    ensures Has(t[..1], b) <==> place < Size(t[0])
    ensures Has(t[..1], b) ==> Digit(t[..1], b) == place
  {
    var h := Holder(t, b, 0);
    assert t[..1][0] == t[0];
    assert Holder(t[..1], b, 0) == if In(t[0], b) then 0 else 1;
    AccumulatedGrows(t, 0, h);
    if h > 0 {
      AccumulatedGrows(t, 1, h);
      assert Accumulated(t, 1) == Size(t[0]);
    }
  }

  ghost predicate CodeSurvives(segs: seq<Segment>, w: int)
    requires SegsOk(segs)
  {
    match Encode(segs, w)
    case None => false
    case Some((b0, b1)) => 0 <= b0 < 256 && 0 <= b1 < 256 && Decode(segs, b0, b1) == Some(w)
  }

  lemma DecodeIs(segs: seq<Segment>, b0: Byte, b1: Byte, s: nat, row: int, place: int)
    requires SegsOk(segs) && s < |segs| && 0 <= row < Size(segs[s].first) && b0 == row + segs[s].first.first
    requires Has(Looked(segs, s), b1) ==> Digit(Looked(segs, s), b1) == place
    ensures Decode(segs, b0, b1) ==
      if Has(Looked(segs, s), b1) then Some(Times(row, Cells(segs[s])) + place + Start(segs, s)) else None
  {
    SegWithIs(segs, b0, s);
  }

  /** A code is got back from its bytes if and only if its place in the row is one that second bytes are looked up in. */
  lemma CodeToBytes(segs: seq<Segment>, w: int, s: nat)
    requires SegsOk(segs) && IsCode(segs, w) && s == SegOf(segs, w, 0)
    ensures s < |segs| && (CodeSurvives(segs, w) <==> Place(segs, w, s) < Count(Looked(segs, s)))
  {
    Lies(segs, w, s);
    LookedOk(segs, s);
    var row, place := Row(segs, w, s), Place(segs, w, s);
    var b0, b1 := row + segs[s].first.first, ByteOf(segs[0].table, place);
    EncodeIs(segs, w, s, b0, b1);
    if place < Count(segs[0].table) {
      FoundAgain(segs, s, place);
      DecodeIs(segs, b0, b1, s, row, place);
    }
  }

  lemma EncodeIs(segs: seq<Segment>, w: int, s: nat, b0: int, b1: int)
    requires SegsOk(segs) && s == SegOf(segs, w, 0) < |segs|
    requires b0 == Row(segs, w, s) + segs[s].first.first && b1 == ByteOf(segs[0].table, Place(segs, w, s))
    ensures Encode(segs, w) == if Place(segs, w, s) < Count(segs[0].table) then Some((b0, b1)) else None
  {
  }

  /** Whose bytes these are. */
  lemma EncodeGives(segs: seq<Segment>, w: int, s: nat, b0: Byte, b1: Byte)
    requires SegsOk(segs) && IsCode(segs, w) && s == SegOf(segs, w, 0) && Encode(segs, w) == Some((b0 as int, b1 as int))
    ensures s < |segs| && SegWith(segs, b0, 0) == s && Place(segs, w, s) < Cells(segs[s])
    ensures w == Start(segs, s) + Place(segs, w, s) + Times(b0 - segs[s].first.first, Cells(segs[s]))
  {
    Lies(segs, w, s);
    SegWithIs(segs, b0, s);
  }

  ghost predicate BytesSurvive(segs: seq<Segment>, b0: Byte, b1: Byte)
    requires SegsOk(segs)
  {
    match Decode(segs, b0, b1)
    case None => true
    case Some(w) => IsCode(segs, w) && Encode(segs, w) == Some((b0 as int, b1 as int))
  }

  /** Bytes are got back from their code if and only if the row has as many places. */
  lemma BytesToCode(segs: seq<Segment>, b0: Byte, b1: Byte, s: nat, place: int, w: int)
    requires SegsOk(segs) && Decode(segs, b0, b1) == Some(w) && s == SegWith(segs, b0, 0) && place == Digit(Looked(segs, s), b1)
    ensures BytesSurvive(segs, b0, b1) <==> place < Cells(segs[s])
  {
    LookedOk(segs, s);
    ByteOfDigit(Looked(segs, s), b1);
    if place < Cells(segs[s]) {
      IsThere(segs, s, b0 - segs[s].first.first, place, w);
      SameByte(segs, s, b1);
    } else if BytesSurvive(segs, b0, b1) {
      EncodeGives(segs, w, SegOf(segs, w, 0), b0, b1);
      assert false;
    }
  }

  lemma SameByte(segs: seq<Segment>, s: nat, b: Byte)
    requires SegsOk(segs) && s < |segs| && Has(Looked(segs, s), b)
    ensures Has(segs[0].table, b) && Digit(segs[0].table, b) == Digit(Looked(segs, s), b)
    ensures ByteOf(segs[0].table, Digit(Looked(segs, s), b)) == b && Digit(Looked(segs, s), b) < Count(segs[0].table)
  {
    var t := segs[0].table;
    SegAt(segs, 0);
    if Looked(segs, s) != t {
      OneRange(t);
      assert t[..1][0] == t[0];
      assert Holder(t[..1], b, 0) == 0 && Holder(t, b, 0) == 0;
    }
    ByteOfDigit(t, b);
  }

  /** Each segment has as many characters in a row as there are second bytes it is looked up in. */
  predicate Even(segs: seq<Segment>)
    requires segs != [] && segs[0].table != []
  {
    forall s :: 0 <= s < |segs| ==> Cells(segs[s]) == Count(Looked(segs, s))
  }

  /** Codes and bytes are in one-to-one correspondence if and only if all rows are of the looked-up length. */
  lemma OneToOne(segs: seq<Segment>)
    requires SegsOk(segs)
    ensures Even(segs) <==>
      (forall w :: IsCode(segs, w) ==> CodeSurvives(segs, w)) && (forall b0: Byte, b1: Byte :: BytesSurvive(segs, b0, b1))
  {
    if Even(segs) {
      forall w | IsCode(segs, w) ensures CodeSurvives(segs, w) {
        Lies(segs, w, SegOf(segs, w, 0));
        CodeToBytes(segs, w, SegOf(segs, w, 0));
      }
      forall b0: Byte, b1: Byte ensures BytesSurvive(segs, b0, b1) {
        EvenBytes(segs, b0, b1);
      }
    } else {
      var s :| 0 <= s < |segs| && Cells(segs[s]) != Count(Looked(segs, s));
      Uneven(segs, s);
    }
  }

  lemma EvenBytes(segs: seq<Segment>, b0: Byte, b1: Byte)
    requires SegsOk(segs) && Even(segs)
    ensures BytesSurvive(segs, b0, b1)
  {
    var r := Decode(segs, b0, b1);
    if r.Some? {
      var s := SegWith(segs, b0, 0);
      LookedOk(segs, s);
      ByteOfDigit(Looked(segs, s), b1);
      BytesToCode(segs, b0, b1, s, Digit(Looked(segs, s), b1), r.value);
    }
  }

  /** A longer row has a code that gets lost, a shorter one bytes that do. */
  lemma Uneven(segs: seq<Segment>, s: nat)
    requires SegsOk(segs) && s < |segs| && Cells(segs[s]) != Count(Looked(segs, s))
    ensures (exists w :: IsCode(segs, w) && !CodeSurvives(segs, w)) || (exists b0: Byte, b1: Byte :: !BytesSurvive(segs, b0, b1))
  {
    SegAt(segs, s);
    LookedOk(segs, s);
    CellsPositive(segs[s]);
    if Count(Looked(segs, s)) < Cells(segs[s]) {
      var w := Start(segs, s) + Count(Looked(segs, s));
      IsThere(segs, s, 0, Count(Looked(segs, s)), w);
      CodeToBytes(segs, w, s);
    } else {
      var b0, place := segs[s].first.first, Cells(segs[s]);
      DigitOfByte(Looked(segs, s), place);
      var b1 := ByteOf(Looked(segs, s), place);
      DecodeIs(segs, b0, b1, s, 0, place);
      SegWithIs(segs, b0, s);
      BytesToCode(segs, b0, b1, s, place, Decode(segs, b0, b1).value);
      assert !BytesSurvive(segs, b0, b1);
    }
  }

  /** So they are when all segments have the same table. */
  lemma OneTable(segs: seq<Segment>)
    requires SegsOk(segs) && forall s :: 0 <= s < |segs| ==> segs[s].table == segs[0].table
    ensures Even(segs)
  {
    forall s | 0 <= s < |segs| ensures Looked(segs, s) == segs[s].table {
      assert |segs[0].table| == 1 ==> segs[0].table[..1] == segs[0].table;
    }
  }

  // The segments of big5.c.
  const LEVEL: Plane := [Range(0x40, 0x7e), Range(0xa1, 0xfe)]
  const SYMBOLS: Plane := [Range(0x40, 0x7e), Range(0xa1, 0xbf), Range(0xe1, 0xe1)]
  const BIG5: seq<Segment> := [Segment(Range(0xa1, 0xa2), LEVEL), Segment(Range(0xa3, 0xa3), SYMBOLS), Segment(Range(0xa4, 0xf9), LEVEL)]

  lemma Big5Counts()
    ensures Count(LEVEL) == 157 && Count(SYMBOLS) == 95 && Start(BIG5, 1) == 315 && Start(BIG5, 2) == 410
  {
    assert Accumulated(LEVEL, 1) == 63 && Accumulated(SYMBOLS, 1) == 63 && Accumulated(SYMBOLS, 2) == 94;
    TimesIs(2, 157);
    TimesIs(1, 95);
    assert Start(BIG5, 1) == 1 + Characters(BIG5[0]);
    assert Start(BIG5, 2) == Start(BIG5, 1) + Characters(BIG5[1]);
  }

  lemma Big5Ok()
    ensures SegsOk(BIG5)
  {
    assert Ascending(LEVEL);
    assert Ascending(SYMBOLS);
    assert SegmentOk(BIG5[0]) && SegmentOk(BIG5[1]) && SegmentOk(BIG5[2]);
  }

  /** The table of the first segment is not that of 0xa3: of its second bytes 0xfe is taken, and gives the code of 0xa47d. */
  lemma Big5Collides()
    ensures SegsOk(BIG5) && !Even(BIG5)
    ensures Decode(BIG5, 0xa3, 0xfe) == Decode(BIG5, 0xa4, 0x7d) == Some(471)
  {
    Big5Ok();
    Big5Counts();
    assert Cells(BIG5[1]) != Count(Looked(BIG5, 1));
    assert Accumulated(LEVEL, 1) == 63;
    assert Has(LEVEL, 0xfe) && Digit(LEVEL, 0xfe) == 156;
    assert Has(LEVEL, 0x7d) && Digit(LEVEL, 0x7d) == 61;
    DecodeIs(BIG5, 0xa3, 0xfe, 1, 0, 156);
    DecodeIs(BIG5, 0xa4, 0x7d, 2, 0, 61);
  }

  /** The first code is that of 0xa140, and 0xa47d has code 471, both ways. */
  lemma Big5Known()
    ensures Decode(BIG5, 0xa1, 0x40) == Some(1) && Encode(BIG5, 1) == Some((0xa1, 0x40))
    ensures Decode(BIG5, 0xa4, 0x7d) == Some(471) && Encode(BIG5, 471) == Some((0xa4, 0x7d))
  {
    Big5Counts();
    assert Accumulated(LEVEL, 1) == 63;
    assert Has(LEVEL, 0x40) && Digit(LEVEL, 0x40) == 0;
    Big5At(0, 0xa1, 0x40, 0);
    assert Has(LEVEL, 0x7d) && Digit(LEVEL, 0x7d) == 61;
    Big5At(2, 0xa4, 0x7d, 61);
  }

  lemma Big5At(s: nat, b0: Byte, b1: Byte, place: int)
    requires (s == 0 || s == 2) && b0 == BIG5[s].first.first && Has(LEVEL, b1) && Digit(LEVEL, b1) == place
    ensures Decode(BIG5, b0, b1) == Some(Start(BIG5, s) + place) && Encode(BIG5, Start(BIG5, s) + place) == Some((b0 as int, b1 as int))
  {
    Big5Ok();
    FirstRow(BIG5, s, b0, b1, place);
  }

  /** In the first row of a segment whose table is that of the first the codes follow the second bytes. */
  lemma {:induction false} FirstRow(segs: seq<Segment>, s: nat, b0: Byte, b1: Byte, place: int)
    requires SegsOk(segs) && s < |segs| && Looked(segs, s) == segs[s].table == segs[0].table && b0 == segs[s].first.first
    requires Has(segs[s].table, b1) && Digit(segs[s].table, b1) == place
    ensures Decode(segs, b0, b1) == Some(Start(segs, s) + place) && Encode(segs, Start(segs, s) + place) == Some((b0 as int, b1 as int))
  {
    SegAt(segs, s);
    ByteOfDigit(segs[s].table, b1);
    IsThere(segs, s, 0, place, Start(segs, s) + place);
    SegWithIs(segs, b0, s);
    DecodeIs(segs, b0, b1, s, 0, place);
    EncodeIs(segs, Start(segs, s) + place, s, b0, b1);
  }
}
