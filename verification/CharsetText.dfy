/** Texts of linear codes as bytes, and back (src/lib/charset/charset.c). */
module CharsetText {

  import opened ByteRanges
  import opened Charset
  import opened Sealed

  // What the conversions do.

  // The flag of a code that is an ASCII character.
  const UINT32BIT := 0x8000_0000

  /** How far a conversion gets, and whether to the end. */
  datatype Run = Run(ok: bool, out: seq<int>)

  function After(head: seq<int>, rest: Run): Run {
    Run(rest.ok, head + rest.out)
  }

  /** The bytes of one code. */
  function One(segs: seq<Segment>, w: nat): Option<seq<int>>
    requires segs != []
  {
    if w >= UINT32BIT then Some([(w - UINT32BIT) % 256])
    else if !IsCode(segs, w) then None
    else match Encode(segs, w)
      case None => None
      case Some((b0, b1)) => Some([b0, b1])
  }

  /** cs2_lnr2mbs from code i on, with a buffer large enough. */
  function Written(segs: seq<Segment>, ws: seq<nat>, i: nat): Run
    requires segs != [] && i <= |ws|
    decreases |ws| - i
  {
    if i == |ws| then Run(true, [])
    else if ws[i] == 0 then Run(true, [0])
    else match One(segs, ws[i])
      case None => Run(false, [])
      case Some(head) => After(head, Written(segs, ws, i + 1))
  }

  /** A byte of a text; behind the text there is a NUL. */
  function ByteAt(ms: seq<Byte>, p: nat): Byte {
    if p < |ms| then ms[p] else 0
  }

  /** cs2_mbs2lnr from byte p on, with a buffer large enough. */
  function Read(segs: seq<Segment>, ms: seq<Byte>, p: nat): Run
    requires segs != [] && segs[0].table != []
    decreases |ms| - p
  {
    if p >= |ms| then Run(true, [])
    else if ms[p] == 0 then Run(true, [0])
    else if ms[p] < 0x80 then After([UINT32BIT + ms[p]], Read(segs, ms, p + 1))
    else match Decode(segs, ms[p], ByteAt(ms, p + 1))
      case None => Run(false, [])
      case Some(w) => After([w], Read(segs, ms, p + 2))
  }

  // Round trips.

  /** A code that comes back: an ASCII character other than NUL, or a code whose bytes give it. */
  ghost predicate Safe(segs: seq<Segment>, w: nat)
    requires SegsOk(segs)
  {
    if w >= UINT32BIT then UINT32BIT < w < UINT32BIT + 0x80 else IsCode(segs, w) && CodeSurvives(segs, w)
  }

  /** All codes from i on come back; a NUL only ends the text. */
  ghost predicate AllSafe(segs: seq<Segment>, ws: seq<nat>, i: nat)
    requires SegsOk(segs) && i <= |ws|
    decreases |ws| - i
  {
    i < |ws| ==> if ws[i] == 0 then i + 1 == |ws| else Safe(segs, ws[i]) && AllSafe(segs, ws, i + 1)
  }

  predicate AllBytes(s: seq<int>) {
    forall k :: 0 <= k < |s| ==> 0 <= s[k] < 256
  }

  lemma EncodeBytes(segs: seq<Segment>, w: int, b0: int, b1: int)
    requires SegsOk(segs) && IsCode(segs, w) && Encode(segs, w) == Some((b0, b1))
    ensures 0x80 <= b0 < 256 && 0 < b1 < 256
  {
    var s := SegOf(segs, w, 0);
    Lies(segs, w, s);
    SegAt(segs, s);
    SegAt(segs, 0);
    DigitOfByte(segs[0].table, Place(segs, w, s));
  }

  lemma OneBytes(segs: seq<Segment>, w: nat)
    requires SegsOk(segs) && One(segs, w).Some?
    ensures AllBytes(One(segs, w).value)
  {
    if w < UINT32BIT {
      var r := Encode(segs, w).value;
      EncodeBytes(segs, w, r.0, r.1);
    }
  }

  lemma {:induction false} WrittenBytes(segs: seq<Segment>, ws: seq<nat>, i: nat)
    requires SegsOk(segs) && i <= |ws|
    ensures AllBytes(Written(segs, ws, i).out)
    decreases |ws| - i
  {
    if i < |ws| && ws[i] != 0 && One(segs, ws[i]).Some? {
      OneBytes(segs, ws[i]);
      WrittenBytes(segs, ws, i + 1);
    }
  }

  /** Linear codes stay clear of the flag. */
  ghost predicate Flagged(segs: seq<Segment>) {
    SegsOk(segs) && Start(segs, |segs|) + 256 <= UINT32BIT
  }

  lemma {:induction false} DecodeBound(segs: seq<Segment>, b0: Byte, b1: Byte)
    requires SegsOk(segs) && Decode(segs, b0, b1).Some?
    ensures 0 < b1 && 1 <= Decode(segs, b0, b1).value < Start(segs, |segs|) + 256
  {
    var s := SegWith(segs, b0, 0);
    SegAt(segs, s);
    LookedOk(segs, s);
    CountSmall(Looked(segs, s));
    ByteOfDigit(Looked(segs, s), b1);
    CellsPositive(segs[s]);
    StartGrows(segs, 0, s);
    StartGrows(segs, s, |segs|);
    TimesGrows(b0 - segs[s].first.first, Size(segs[s].first), Cells(segs[s]));
  }

  /** The bytes of a code at p: what is read there first is the code, if and only if it is safe. */
  lemma OneReads(segs: seq<Segment>, w: nat, ms: seq<Byte>, p: nat, head: seq<int>)
    requires Flagged(segs) && w != 0 && One(segs, w) == Some(head) && p + |head| <= |ms| && ms[p..p + |head|] == head
    ensures Safe(segs, w) ==> Read(segs, ms, p) == After([w], Read(segs, ms, p + |head|))
    ensures !Safe(segs, w) && Read(segs, ms, p).ok ==> Read(segs, ms, p).out != [] && Read(segs, ms, p).out[0] != w
  {
    assert ms[p] == head[0];
    if w < UINT32BIT {
      var r := Encode(segs, w).value;
      EncodeBytes(segs, w, r.0, r.1);
      assert ms[p + 1] == head[1];
    } else if UINT32BIT < w < UINT32BIT + 0x80 {
      assert head[0] == w - UINT32BIT;
    } else if Decode(segs, ms[p], ByteAt(ms, p + 1)).Some? {
      DecodeBound(segs, ms[p], ByteAt(ms, p + 1));
    }
  }

  lemma Slices(ms: seq<Byte>, p: nat, head: seq<int>, rest: seq<int>, q: nat)
    requires p <= |ms| && ms[p..] == head + rest && q == p + |head|
    ensures q <= |ms| && ms[p..q] == head && ms[q..] == rest
  {
    assert ms[p..][..|head|] == head && ms[p..][|head|..] == rest;
  }

  /** A text comes back from its bytes if and only if all of its codes do. */
  lemma {:induction false} ComesBack(segs: seq<Segment>, ws: seq<nat>, i: nat, ms: seq<Byte>, p: nat)
    requires Flagged(segs) && i <= |ws| && p <= |ms| && ms[p..] == Written(segs, ws, i).out
    ensures Written(segs, ws, i).ok && Read(segs, ms, p) == Run(true, ws[i..]) <==> AllSafe(segs, ws, i)
    decreases |ws| - i
  {
    if i < |ws| {
      var rest := ws[i + 1..];
      assert ws[i..] == [ws[i]] + rest;
      if ws[i] == 0 {
        assert ms[p..][0] == ms[p] == 0;
      } else if One(segs, ws[i]).Some? {
        var head := One(segs, ws[i]).value;
        var q := p + |head|;
        Slices(ms, p, head, Written(segs, ws, i + 1).out, q);
        OneReads(segs, ws[i], ms, p, head);
        ComesBack(segs, ws, i + 1, ms, q);
        if Safe(segs, ws[i]) {
          SameRest(ws[i], Read(segs, ms, q), rest);
        }
      }
    }
  }

  lemma SameRest(w: int, r: Run, rest: seq<int>)
    ensures After([w], r) == Run(true, [w] + rest) <==> r == Run(true, rest)
  {
    assert ([w] + r.out)[1..] == r.out && ([w] + rest)[1..] == rest;
  }

  /** The round trip of a whole text; its bytes are bytes. */
  lemma TextRoundTrip(segs: seq<Segment>, ws: seq<nat>)
    requires Flagged(segs)
    ensures var r := Written(segs, ws, 0);
      AllBytes(r.out) && (r.ok && Read(segs, r.out, 0) == Run(true, ws) <==> AllSafe(segs, ws, 0))
  {
    WrittenBytes(segs, ws, 0);
    var ms: seq<Byte> := Written(segs, ws, 0).out;
    assert ms[0..] == ms && ws[0..] == ws;
    ComesBack(segs, ws, 0, ms, 0);
  }
}
