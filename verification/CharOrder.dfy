/** Which number a character has (src/Cinput/im_comm/charcode.c): byte by byte, range by range, encoding by encoding. */
module CharOrder {

  import opened ByteRanges
  import opened CharCode

  /** The bytes of a plane are counted range after range: from 0, by one within a range, and on from its last byte to the first of the
      next. */
  lemma {:induction false} DigitsCount(p: Plane, j: nat, b: Byte)
    requires RangesOk(p) && j < |p| && p[j].first <= b <= p[j].last
    ensures Has(p, b) && Has(p, p[0].first) && Digit(p, p[0].first) == 0
    ensures b < p[j].last ==> Has(p, b + 1) && Digit(p, b + 1) == Digit(p, b) + 1
    ensures b == p[j].last && j + 1 < |p| ==> Has(p, p[j + 1].first) && Digit(p, p[j + 1].first) == Digit(p, b) + 1
    ensures b == p[j].last && j + 1 == |p| ==> Count(p) == Digit(p, b) + 1
  {
    HolderIs(p, j, b);
    HolderIs(p, 0, p[0].first);
    if b < p[j].last {
      HolderIs(p, j, b + 1);
    } else if j + 1 < |p| {
      HolderIs(p, j + 1, p[j + 1].first);
    }
  }

  lemma HolderIs(p: Plane, j: nat, b: Byte)
    requires RangesOk(p) && j < |p| && p[j].first <= b <= p[j].last
    ensures Has(p, b) && Digit(p, b) == b - p[j].first + Accumulated(p, j)
  {
    var h := Holder(p, b, 0);
    assert In(p[j], b);
    assert h == j;
  }

  /** Each byte counts as often as there are characters of the bytes before it, so the first byte counts fastest. */
  lemma {:induction false} Weights(schema: Schema, w: seq<Byte>, n: nat)
    requires n <= |schema| && SchemaOk(schema) && Fits(schema, w, n)
    ensures n == 0 ==> IndexIn(schema, w, n) == 0 && Base(schema, n) == 1
    ensures n > 0 ==> IndexIn(schema, w, n) == IndexIn(schema, w, n - 1) + Digit(schema[n - 1], w[n - 1]) * Base(schema, n - 1)
    ensures n > 0 ==> Base(schema, n) == Count(schema[n - 1]) * Base(schema, n - 1)
  {
    if n > 0 {
      ByteOfDigit(schema[n - 1], w[n - 1]);
      TimesIs(Digit(schema[n - 1], w[n - 1]), Base(schema, n - 1));
      AccumulatedGrows(schema[n - 1], 0, |schema[n - 1]|);
      TimesIs(Count(schema[n - 1]), Base(schema, n - 1));
    }
  }

  /** Two characters of an encoding are in the order of their last bytes that differ. */
  lemma {:induction false} LastByteDecides(schema: Schema, v: seq<Byte>, w: seq<Byte>, n: nat, i: nat)
    requires i < n <= |schema| && SchemaOk(schema) && Fits(schema, v, n) && Fits(schema, w, n)
    requires Digit(schema[i], v[i]) < Digit(schema[i], w[i]) && forall j :: i < j < n ==> v[j] == w[j]
    ensures IndexIn(schema, v, n) < IndexIn(schema, w, n)
    decreases n
  {
    if i == n - 1 {
      IndexBound(schema, v, i);
      IndexBound(schema, w, i);
      ByteOfDigit(schema[i], v[i]);
      TimesGrows(Digit(schema[i], v[i]), Digit(schema[i], w[i]), Base(schema, i));
    } else {
      LastByteDecides(schema, v, w, n - 1, i);
    }
  }

  /** A character's number is its index, behind all characters of the encodings before its own. */
  lemma {:induction false} NumberIs(cfg: seq<Schema>, w: seq<Byte>, e: nat)
    requires ConfigOk(cfg) && IsWch(w) && e < |cfg| && Matches(cfg[e], w) && Length(w, 0) == |cfg[e]|
    requires forall i :: 0 <= i < e ==> !Matches(cfg[i], w)
    ensures Number(cfg, w) == Total(cfg, e) + IndexIn(cfg[e], w, |cfg[e]|) && 0 <= IndexIn(cfg[e], w, |cfg[e]|) < All(cfg[e])
  {
    FirstIs(cfg, w, e);
    IndexBound(cfg[e], w, |cfg[e]|);
  }

  lemma {:induction false} FirstIs(cfg: seq<Schema>, w: seq<Byte>, e: nat)
    requires e < |cfg| && Matches(cfg[e], w) && forall i :: 0 <= i < e ==> !Matches(cfg[i], w)
    ensures FirstMatch(cfg, w, 0) == e
  {
    var f := FirstMatch(cfg, w, 0);
    assert f >= e && f <= e;
  }

  /** So the characters of an encoding come before those of the next. */
  lemma EncodingsInOrder(cfg: seq<Schema>, v: seq<Byte>, w: seq<Byte>, e: nat, f: nat)
    requires ConfigOk(cfg) && IsWch(v) && IsWch(w) && e < f < |cfg| && Matches(cfg[e], v) && Matches(cfg[f], w)
    requires Length(v, 0) == |cfg[e]| && Length(w, 0) == |cfg[f]|
    requires (forall i :: 0 <= i < e ==> !Matches(cfg[i], v)) && forall i :: 0 <= i < f ==> !Matches(cfg[i], w)
    ensures 0 <= Number(cfg, v) < Number(cfg, w)
  {
    NumberIs(cfg, v, e);
    NumberIs(cfg, w, f);
    TotalGrows(cfg, 0, e);
    TotalGrows(cfg, e, f);
  }

  // Two characters of the UTF-8 table: U+4E00 is 0xe4 0xb8 0x80, U+00E9 is 0xc3 0xa9.

  const YI: seq<Byte> := [0xe4, 0xb8, 0x80, 0]
  const E_ACUTE: seq<Byte> := [0xc3, 0xa9, 0, 0]

  lemma KnownNumbers()
    ensures Number(UTF8, YI) == 619 && Number(UTF8, E_ACUTE) == 45467
  {
    Utf8Ok();
    YiIndex();
    EAcuteIndex();
    assert Length(YI, 0) == 3 && Length(E_ACUTE, 0) == 2;
    NumberIs(UTF8, YI, 0);
    assert !Has(THREE_BYTES[0], 0xc3);
    NumberIs(UTF8, E_ACUTE, 1);
    Utf8Counts();
    assert Total(UTF8, 1) == 45056;
  }

  lemma CountOf(p: Plane)
    ensures |p| > 0 ==> Accumulated(p, 1) == Size(p[0])
    ensures |p| == 1 ==> Count(p) == Size(p[0])
    ensures |p| == 3 ==> Count(p) == Size(p[0]) + Size(p[1]) + Size(p[2])
    ensures |p| == 4 ==> Count(p) == Size(p[0]) + Size(p[1]) + Size(p[2]) + Size(p[3])
  {
    if |p| > 0 {
      assert Accumulated(p, 1) == Accumulated(p, 0) + Size(p[0]);
      if |p| > 2 {
        assert Accumulated(p, 2) == Accumulated(p, 1) + Size(p[1]);
        assert Accumulated(p, 3) == Accumulated(p, 2) + Size(p[2]);
      }
    }
  }

  /** Two and three bytes written out. */
  lemma TwoAndThree(s: Schema, w: seq<Byte>)
    requires SchemaOk(s) && Fits(s, w, |s|)
    ensures |s| >= 2 ==> IndexIn(s, w, 2) == Digit(s[0], w[0]) + Digit(s[1], w[1]) * Count(s[0])
    ensures |s| >= 3 ==> IndexIn(s, w, 3) == IndexIn(s, w, 2) + Digit(s[2], w[2]) * (Count(s[1]) * Count(s[0]))
  {
    if |s| >= 2 {
      Weights(s, w, 0);
      Weights(s, w, 1);
      Weights(s, w, 2);
      if |s| >= 3 {
        Weights(s, w, 3);
      }
    }
  }

  lemma YiDigits()
    ensures Has(THREE_BYTES[0], 0xe4) && Digit(THREE_BYTES[0], 0xe4) == 3 && Count(THREE_BYTES[0]) == 11
  {
    HolderIs(THREE_BYTES[0], 1, 0xe4);
    CountOf(THREE_BYTES[0]);
  }

  lemma TailDigit(b: Byte)
    requires 0x80 <= b <= 0xbf
    ensures Has(TAIL, b) && Digit(TAIL, b) == b - 0x80 && Count(TAIL) == 64
  {
    HolderIs(TAIL, 0, b);
    CountOf(TAIL);
  }

  lemma YiIndex()
    ensures Matches(THREE_BYTES, YI) && IndexIn(THREE_BYTES, YI, 3) == 619
  {
    assert SchemaOk(THREE_BYTES);
    YiDigits();
    TailDigit(0xb8);
    TailDigit(0x80);
    TwoAndThree(THREE_BYTES, YI);
  }

  lemma EAcuteDigits()
    ensures Has(TWO_BYTES[0], 0xc3) && Digit(TWO_BYTES[0], 0xc3) == 1 && Count(TWO_BYTES[0]) == 10
  {
    HolderIs(TWO_BYTES[0], 0, 0xc3);
    CountOf(TWO_BYTES[0]);
  }

  lemma EAcuteIndex()
    ensures Matches(TWO_BYTES, E_ACUTE) && IndexIn(TWO_BYTES, E_ACUTE, 2) == 411
  {
    assert SchemaOk(TWO_BYTES);
    EAcuteDigits();
    TailDigit(0xa9);
    TwoAndThree(TWO_BYTES, E_ACUTE);
  }
}
