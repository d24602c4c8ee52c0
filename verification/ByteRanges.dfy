/** Bytes in ranges, and their numbers: the bytes of the first range, then those of the next, and so on. */
module ByteRanges {

  type Byte = b: int | 0 <= b < 256

  datatype Range = Range(first: Byte, last: Byte)

  /** What one byte of a character may be. */
  type Plane = seq<Range>

  // Products and quotients, step by step.

  function Times(a: int, b: int): int
    decreases a
  {
    if a <= 0 then 0 else b + Times(a - 1, b)
  }

  function Quotient(x: int, base: int): (q: int)
    ensures q >= 0
    decreases x
  {
    if base <= 0 || x < base then 0 else 1 + Quotient(x - base, base)
  }

  lemma {:induction false} TimesIs(a: nat, b: int)
    ensures Times(a, b) == a * b
  {
    if a > 0 {
      TimesIs(a - 1, b);
    }
  }

  lemma {:induction false} TimesGrows(a: int, b: int, base: int)
    requires 0 <= a < b && base >= 0
    ensures 0 <= Times(a, base) && Times(a, base) + base <= Times(b, base)
    decreases b
  {
    if a > 0 {
      TimesGrows(a - 1, b - 1, base);
    } else if b > 1 {
      TimesGrows(0, b - 1, base);
    }
  }

  lemma {:induction false} QuotientOf(low: int, d: int, base: int)
    requires 0 <= low < base && 0 <= d
    ensures Quotient(low + Times(d, base), base) == d
    decreases d
  {
    if d > 0 {
      QuotientOf(low, d - 1, base);
      TimesGrows(0, d, base);
    }
  }

  lemma {:induction false} QuotientIs(x: nat, base: nat)
    requires base > 0
    ensures Quotient(x, base) == x / base
  {
    DivMod(x, base);
    QuotientBy(x, x / base, x % base, base);
  }

  lemma DivMod(x: nat, base: nat)
    requires base > 0
    ensures x == x / base * base + x % base && 0 <= x % base < base && x / base >= 0
  {
  }

  lemma {:induction false} QuotientBy(x: int, q: nat, low: int, base: int)
    requires x == q * base + low && 0 <= low < base
    ensures Quotient(x, base) == q
  {
    TimesIs(q, base);
    QuotientOf(low, q, base);
  }

  lemma {:induction false} QuotientWithin(x: int, base: int, count: int)
    requires 0 < base && 0 <= x < Times(count, base)
    ensures Quotient(x, base) < count && 0 <= x - Times(Quotient(x, base), base) < base
    decreases x
  {
    if x >= base {
      QuotientWithin(x - base, base, count - 1);
    }
  }

  // Digits: the bytes of a plane, range by range.

  function Size(r: Range): int {
    r.last - r.first + 1
  }

  /** The sizes of the first j ranges. */
  function Accumulated(p: Plane, j: nat): int
    requires j <= |p|
  {
    if j == 0 then 0 else Accumulated(p, j - 1) + Size(p[j - 1])
  }

  function Count(p: Plane): int {
    Accumulated(p, |p|)
  }

  predicate In(r: Range, b: Byte) {
    r.first <= b <= r.last
  }

  /** The first range from j on that has b. */
  function Holder(p: Plane, b: Byte, j: nat): (h: nat)
    requires j <= |p|
    ensures j <= h <= |p| && (h < |p| ==> In(p[h], b)) && forall i :: j <= i < h ==> !In(p[i], b)
    decreases |p| - j
  {
    if j == |p| || In(p[j], b) then j else Holder(p, b, j + 1)
  }

  predicate Has(p: Plane, b: Byte) {
    Holder(p, b, 0) < |p|
  }

  function Digit(p: Plane, b: Byte): int
    requires Has(p, b)
  {
    var h := Holder(p, b, 0);
    b - p[h].first + Accumulated(p, h)
  }

  /** The last range from j - 1 on that starts at digit d or before it. */
  function Slot(p: Plane, d: int, j: nat): (s: nat)
    requires 0 < j <= |p|
    ensures j - 1 <= s < |p|
    decreases |p| - j
  {
    if j < |p| && d >= Accumulated(p, j) then Slot(p, d, j + 1) else j - 1
  }

  function ByteOf(p: Plane, d: int): int {
    if p == [] then 0
    else
      var s := Slot(p, d, 1);
      d - Accumulated(p, s) + p[s].first
  }

  /** Ranges of bytes other than NUL, none of them twice; their order does not matter. */
  predicate RangesOk(p: Plane) {
    && p != []
    && (forall j :: 0 <= j < |p| ==> 0 < p[j].first <= p[j].last)
    && (forall i, j :: 0 <= i < j < |p| ==> p[i].last < p[j].first || p[j].last < p[i].first)
  }

  lemma {:induction false} AccumulatedGrows(p: Plane, i: nat, j: nat)
    requires i <= j <= |p| && forall k :: 0 <= k < |p| ==> p[k].first <= p[k].last
    ensures Accumulated(p, i) <= Accumulated(p, j) && (i < j ==> Accumulated(p, i) + Size(p[i]) <= Accumulated(p, j))
    decreases j
  {
    if i < j {
      AccumulatedGrows(p, i, j - 1);
    }
  }

  lemma {:induction false} SlotIs(p: Plane, d: int, j: nat, s: nat)
    requires 0 < j <= s + 1 <= |p| && forall k :: 0 <= k < |p| ==> p[k].first <= p[k].last
    requires Accumulated(p, s) <= d < Accumulated(p, s + 1)
    ensures Slot(p, d, j) == s
    decreases |p| - j
  {
    if j <= s {
      AccumulatedGrows(p, j, s);
      SlotIs(p, d, j + 1, s);
    } else if j < |p| {
      assert j == s + 1;
    }
  }

  lemma {:induction false} SlotFound(p: Plane, d: int, j: nat)
    requires 0 < j <= |p| && Accumulated(p, j - 1) <= d < Count(p)
    ensures var s := Slot(p, d, j); Accumulated(p, s) <= d < Accumulated(p, s + 1)
    decreases |p| - j
  {
    if j < |p| && d >= Accumulated(p, j) {
      SlotFound(p, d, j + 1);
    }
  }

  /** The byte of a digit is found again, and its digit is the same. */
  lemma DigitOfByte(p: Plane, d: int)
    requires RangesOk(p) && 0 <= d < Count(p)
    ensures 0 < ByteOf(p, d) < 256 && Has(p, ByteOf(p, d)) && Digit(p, ByteOf(p, d)) == d
  {
    SlotFound(p, d, 1);
    var s := Slot(p, d, 1);
    var b := ByteOf(p, d);
    assert In(p[s], b);
    var h := Holder(p, b, 0);
    assert h == s;
  }

  lemma ByteOfDigit(p: Plane, b: Byte)
    requires RangesOk(p) && Has(p, b)
    ensures 0 <= Digit(p, b) < Count(p) && ByteOf(p, Digit(p, b)) == b && b > 0
  {
    var h := Holder(p, b, 0);
    AccumulatedGrows(p, 0, h);
    AccumulatedGrows(p, h, |p|);
    SlotIs(p, Digit(p, b), 1, h);
  }

  ghost function Interval(first: int, last: int): set<int>
    decreases last - first + 1
  {
    if last < first then {} else Interval(first, last - 1) + {last}
  }

  lemma {:induction false} IntervalIs(first: int, last: int)
    requires first <= last + 1
    ensures |Interval(first, last)| == last - first + 1
    ensures forall b :: b in Interval(first, last) <==> first <= b <= last
    decreases last - first + 1
  {
    if first <= last {
      IntervalIs(first, last - 1);
    }
  }

  /** The bytes of the first j ranges. */
  ghost function BytesOf(p: Plane, j: nat): set<int>
    requires j <= |p|
  {
    if j == 0 then {} else BytesOf(p, j - 1) + Interval(p[j - 1].first, p[j - 1].last)
  }

  lemma {:induction false} BytesFrom(p: Plane, j: nat, b: int) returns (i: nat)
    requires RangesOk(p) && j <= |p| && b in BytesOf(p, j)
    ensures i < j && p[i].first <= b <= p[i].last
  {
    IntervalIs(p[j - 1].first, p[j - 1].last);
    if b in Interval(p[j - 1].first, p[j - 1].last) {
      i := j - 1;
    } else {
      i := BytesFrom(p, j - 1, b);
    }
  }

  lemma {:induction false} BytesOfSize(p: Plane, j: nat)
    requires RangesOk(p) && j <= |p|
    ensures |BytesOf(p, j)| == Accumulated(p, j)
  {
    if j > 0 {
      var r := p[j - 1];
      BytesOfSize(p, j - 1);
      IntervalIs(r.first, r.last);
      forall b | b in BytesOf(p, j - 1) ensures b !in Interval(r.first, r.last) {
        var i := BytesFrom(p, j - 1, b);
      }
    }
  }

  /** A digit fits a byte. */
  lemma CountSmall(p: Plane)
    requires RangesOk(p)
    ensures Count(p) < 256
  {
    BytesOfSize(p, |p|);
    IntervalIs(1, 255);
    forall b | b in BytesOf(p, |p|) ensures b in Interval(1, 255) {
      var i := BytesFrom(p, |p|, b);
    }
    SubsetSize(BytesOf(p, |p|), Interval(1, 255));
  }

  lemma SubsetSize(a: set<int>, b: set<int>)
    requires a <= b
    ensures |a| <= |b|
  {
    assert b == a + (b - a);
  }
}
