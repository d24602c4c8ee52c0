/** Dense numbers for the characters of an encoding: each byte of a character is a digit in mixed radix
    (src/Cinput/im_comm/charcode.c). */
module CharCode {

  import opened ByteRanges
  import opened Sealed

  const N_ENC_SCHEMA := 3
  const WCH_SIZE := 4
  const N_CCODE_RULE := 5

  /** An encoding: the planes of its bytes. */
  type Schema = seq<Plane>

  predicate PlaneOk(p: Plane) {
    RangesOk(p) && |p| <= N_CCODE_RULE
  }

  // Characters of one encoding.

  /** The weight of byte i: the digits before it taken together. */
  function Base(schema: Schema, i: nat): int
    requires i <= |schema|
  {
    if i == 0 then 1 else Times(Count(schema[i - 1]), Base(schema, i - 1))
  }

  /** The first n bytes of w are bytes of the first n planes. */
  predicate Fits(schema: Schema, w: seq<Byte>, n: nat)
    requires n <= |schema|
  {
    n <= |w| && forall i :: 0 <= i < n ==> Has(schema[i], w[i])
  }

  function IndexIn(schema: Schema, w: seq<Byte>, n: nat): int
    requires n <= |schema| && Fits(schema, w, n)
  {
    if n == 0 then 0 else IndexIn(schema, w, n - 1) + Times(Digit(schema[n - 1], w[n - 1]), Base(schema, n - 1))
  }

  /** The n bytes of the character with that index. */
  function BytesIn(schema: Schema, index: int, n: nat): seq<int>
    requires n <= |schema|
    decreases n
  {
    if n == 0 then []
    else
      var d := Quotient(index, Base(schema, n - 1));
      BytesIn(schema, index - Times(d, Base(schema, n - 1)), n - 1) + [ByteOf(schema[n - 1], d)]
  }

  /** Its highest byte has digit d, the rest of it index low. */
  lemma BytesStep(schema: Schema, index: int, n: nat, i: nat, base: int, d: int, low: int)
    requires i + 1 == n <= |schema| && base == Base(schema, i) && d == Quotient(index, base) && low == index - Times(d, base)
    ensures BytesIn(schema, index, n) == BytesIn(schema, low, i) + [ByteOf(schema[i], d)]
  {
  }

  predicate SchemaOk(schema: Schema) {
    0 < |schema| <= WCH_SIZE && forall i :: 0 <= i < |schema| ==> PlaneOk(schema[i])
  }

  lemma {:induction false} BaseGrows(schema: Schema, n: nat)
    requires n <= |schema| && SchemaOk(schema)
    ensures Base(schema, n) > 0
  {
    if n > 0 {
      BaseGrows(schema, n - 1);
      AccumulatedGrows(schema[n - 1], 0, |schema[n - 1]|);
      TimesGrows(0, Count(schema[n - 1]), Base(schema, n - 1));
    }
  }

  /** Taking the highest digit off. */
  lemma HighestDigit(low: int, d: int, base: int, count: int, x: int)
    requires 0 <= low < base && 0 <= d < count && x == low + Times(d, base)
    ensures Quotient(x, base) == d && 0 <= x < Times(count, base)
  {
    QuotientOf(low, d, base);
    TimesGrows(d, count, base);
  }

  lemma {:induction false} IndexBound(schema: Schema, w: seq<Byte>, n: nat)
    requires n <= |schema| && SchemaOk(schema) && Fits(schema, w, n)
    ensures 0 <= IndexIn(schema, w, n) < Base(schema, n)
  {
    if n > 0 {
      IndexBound(schema, w, n - 1);
      ByteOfDigit(schema[n - 1], w[n - 1]);
      HighestDigit(IndexIn(schema, w, n - 1), Digit(schema[n - 1], w[n - 1]), Base(schema, n - 1), Count(schema[n - 1]), IndexIn(schema, w, n));
    }
  }

  /** A character is got back from its index. */
  lemma {:induction false} BytesOfIndex(schema: Schema, w: seq<Byte>, n: nat)
    requires n <= |schema| && SchemaOk(schema) && Fits(schema, w, n)
    ensures BytesIn(schema, IndexIn(schema, w, n), n) == w[..n]
  {
    if n > 0 {
      var base, d, low := Base(schema, n - 1), Digit(schema[n - 1], w[n - 1]), IndexIn(schema, w, n - 1);
      IndexBound(schema, w, n - 1);
      ByteOfDigit(schema[n - 1], w[n - 1]);
      HighestDigit(low, d, base, Count(schema[n - 1]), IndexIn(schema, w, n));
      BytesOfIndex(schema, w, n - 1);
      HighestByte(schema, w, n, IndexIn(schema, w, n), base, d, low);
    }
  }

  lemma HighestByte(schema: Schema, w: seq<Byte>, n: nat, index: int, base: int, d: int, low: int)
    requires 0 < n <= |schema| && n <= |w| && base == Base(schema, n - 1)
    requires d == Quotient(index, base) && low == index - Times(d, base) && ByteOf(schema[n - 1], d) == w[n - 1]
    requires BytesIn(schema, low, n - 1) == w[..n - 1]
    ensures BytesIn(schema, index, n) == w[..n]
  {
    BytesStep(schema, index, n, n - 1, base, d, low);
    assert w[..n] == w[..n - 1] + [w[n - 1]];
  }

  /** Bytes in the sense of the machine. */
  predicate AllBytes(s: seq<int>) {
    forall i :: 0 <= i < |s| ==> 0 < s[i] < 256
  }

  lemma {:induction false} FitsPrefix(schema: Schema, v: seq<Byte>, w: seq<Byte>, n: nat)
    requires n <= |schema| && Fits(schema, v, n) && n <= |w| && forall i :: 0 <= i < n ==> w[i] == v[i]
    ensures Fits(schema, w, n) && IndexIn(schema, w, n) == IndexIn(schema, v, n)
  {
    if n > 0 {
      FitsPrefix(schema, v, w, n - 1);
    }
  }

  /** And an index from its character. */
  lemma {:induction false} IndexOfBytes(schema: Schema, index: int, n: nat)
    requires n <= |schema| && SchemaOk(schema) && 0 <= index < Base(schema, n)
    ensures |BytesIn(schema, index, n)| == n && AllBytes(BytesIn(schema, index, n))
    ensures Fits(schema, BytesIn(schema, index, n), n) && IndexIn(schema, BytesIn(schema, index, n), n) == index
    decreases n, 1
  {
    if n > 0 {
      var base, count := Base(schema, n - 1), Count(schema[n - 1]);
      BaseGrows(schema, n - 1);
      QuotientWithin(index, base, count);
      var d := Quotient(index, base);
      HighestIndex(schema, index, n, n - 1, base, d, index - Times(d, base));
    }
  }

  lemma FitsStep(schema: Schema, w: seq<Byte>, n: nat, i: nat)
    requires i + 1 == n <= |schema| && n <= |w| && Fits(schema, w, i) && Has(schema[i], w[i])
    ensures Fits(schema, w, n) && IndexIn(schema, w, n) == IndexIn(schema, w, i) + Times(Digit(schema[i], w[i]), Base(schema, i))
  {
  }

  lemma {:induction false} HighestIndex(schema: Schema, index: int, n: nat, i: nat, base: int, d: int, low: int)
    requires i + 1 == n <= |schema| && SchemaOk(schema) && base == Base(schema, i) > 0
    requires 0 <= d < Count(schema[i]) && 0 <= low < base && d == Quotient(index, base) && low == index - Times(d, base)
    ensures |BytesIn(schema, index, n)| == n && AllBytes(BytesIn(schema, index, n))
    ensures Fits(schema, BytesIn(schema, index, n), n) && IndexIn(schema, BytesIn(schema, index, n), n) == index
    decreases n, 0
  {
    var bytes, before := BytesIn(schema, index, n), BytesIn(schema, low, i);
    IndexOfBytes(schema, low, i);
    DigitOfByte(schema[i], d);
    BytesStep(schema, index, n, i, base, d, low);
    FitsPrefix(schema, before, bytes, i);
    FitsStep(schema, bytes, n, i);
  }

  // All encodings: their characters are numbered one encoding after the other.

  /** The characters of the first n encodings. */
  function Total(cfg: seq<Schema>, n: nat): int
    requires n <= |cfg|
  {
    if n == 0 then 0 else Total(cfg, n - 1) + All(cfg[n - 1])
  }

  function All(schema: Schema): int {
    Base(schema, |schema|)
  }

  predicate ConfigOk(cfg: seq<Schema>) {
    |cfg| <= N_ENC_SCHEMA && (forall e :: 0 <= e < |cfg| ==> SchemaOk(cfg[e])) && Total(cfg, |cfg|) < 0x8000_0000
  }

  /** wch_t: a character with NUL bytes behind it. */
  predicate IsWch(w: seq<Byte>) {
    |w| == WCH_SIZE
  }

  predicate Matches(schema: Schema, w: seq<Byte>) {
    Fits(schema, w, |schema|)
  }

  /** match_encoding: the first encoding that takes the first bytes of w. */
  function FirstMatch(cfg: seq<Schema>, w: seq<Byte>, e: nat): (f: nat)
    requires e <= |cfg|
    ensures e <= f <= |cfg| && (f < |cfg| ==> Matches(cfg[f], w)) && forall i :: e <= i < f ==> !Matches(cfg[i], w)
    decreases |cfg| - e
  {
    if e == |cfg| || Matches(cfg[e], w) then e else FirstMatch(cfg, w, e + 1)
  }

  /** The bytes before the first NUL. */
  function Length(w: seq<Byte>, i: nat): (n: nat)
    requires i <= |w|
    ensures i <= n <= |w| && (n < |w| ==> w[n] == 0) && forall k :: i <= k < n ==> w[k] != 0
    decreases |w| - i
  {
    if i == |w| || w[i] == 0 then i else Length(w, i + 1)
  }

  /** ccode_to_idx: the number of a character, or -1. */
  function Number(cfg: seq<Schema>, w: seq<Byte>): int {
    var e := FirstMatch(cfg, w, 0);
    if e == |cfg| || Length(w, 0) != |cfg[e]| then -1 else Total(cfg, e) + IndexIn(cfg[e], w, |cfg[e]|)
  }

  /** The encoding of number k, counting from encoding e, and the index in it. */
  function Locate(cfg: seq<Schema>, k: int, e: nat): (r: (nat, int))
    requires e <= |cfg|
    ensures e <= r.0 <= |cfg|
    decreases |cfg| - e
  {
    if e == |cfg| || k < All(cfg[e]) then (e, k) else Locate(cfg, k - All(cfg[e]), e + 1)
  }

  function Padded(bytes: seq<int>): seq<int> {
    if |bytes| < WCH_SIZE then bytes + seq(WCH_SIZE - |bytes|, _ => 0) else bytes
  }

  /** ccode_to_char, for a number in range. */
  function CharOf(cfg: seq<Schema>, k: int): seq<int> {
    var (e, index) := Locate(cfg, k, 0);
    if e == |cfg| then [] else Padded(BytesIn(cfg[e], index, |cfg[e]|))
  }

  lemma {:induction false} TotalGrows(cfg: seq<Schema>, a: nat, b: nat)
    requires a <= b <= |cfg| && forall e :: 0 <= e < |cfg| ==> SchemaOk(cfg[e])
    ensures Total(cfg, a) <= Total(cfg, b) && (a < b ==> Total(cfg, a) + All(cfg[a]) <= Total(cfg, b))
    decreases b
  {
    if a < b {
      BaseGrows(cfg[b - 1], |cfg[b - 1]|);
      TotalGrows(cfg, a, b - 1);
    }
  }

  lemma {:induction false} LocateIs(cfg: seq<Schema>, k: int, e: nat, f: nat)
    requires e <= f < |cfg| && (forall i :: 0 <= i < |cfg| ==> SchemaOk(cfg[i]))
    requires Total(cfg, f) <= Total(cfg, e) + k < Total(cfg, f) + All(cfg[f])
    ensures Locate(cfg, k, e) == (f, Total(cfg, e) + k - Total(cfg, f))
    decreases |cfg| - e
  {
    if e < f {
      TotalGrows(cfg, e, f);
      LocateIs(cfg, k - All(cfg[e]), e + 1, f);
    }
  }

  lemma {:induction false} Located(cfg: seq<Schema>, k: int, e: nat)
    requires e <= |cfg| && 0 <= k && Total(cfg, e) + k < Total(cfg, |cfg|)
    ensures var (f, index) := Locate(cfg, k, e); f < |cfg| && 0 <= index < All(cfg[f]) && Total(cfg, f) + index == Total(cfg, e) + k
    decreases |cfg| - e
  {
    if e < |cfg| && k >= All(cfg[e]) {
      Located(cfg, k - All(cfg[e]), e + 1);
    }
  }

  lemma NumberIs(cfg: seq<Schema>, w: seq<Byte>, e: nat, index: int)
    requires e == FirstMatch(cfg, w, 0) < |cfg| && Length(w, 0) == |cfg[e]| && index == IndexIn(cfg[e], w, |cfg[e]|)
    ensures Number(cfg, w) == Total(cfg, e) + index
  {
  }

  lemma CharIs(cfg: seq<Schema>, k: int, e: nat, index: int, bytes: seq<int>)
    requires Locate(cfg, k, 0) == (e, index) && e < |cfg| && bytes == BytesIn(cfg[e], index, |cfg[e]|)
    ensures CharOf(cfg, k) == Padded(bytes)
  {
  }

  lemma Numbered(cfg: seq<Schema>, w: seq<Byte>, e: nat, index: int, k: int)
    requires ConfigOk(cfg) && e < |cfg| && Matches(cfg[e], w) && index == IndexIn(cfg[e], w, |cfg[e]|) && k == Total(cfg, e) + index
    ensures 0 <= index < All(cfg[e]) && 0 <= k < Total(cfg, |cfg|) && Locate(cfg, k, 0) == (e, index)
  {
    IndexBound(cfg[e], w, |cfg[e]|);
    TotalGrows(cfg, 0, e);
    TotalGrows(cfg, e, |cfg|);
    LocateIs(cfg, k, 0, e);
  }

  /** The number of a character is in range and gives the character back: the same bytes, up to its first NUL. */
  lemma CharOfNumber(cfg: seq<Schema>, w: seq<Byte>)
    requires ConfigOk(cfg) && IsWch(w) && Number(cfg, w) != -1
    ensures 0 <= Number(cfg, w) < Total(cfg, |cfg|) && CharOf(cfg, Number(cfg, w)) == Padded(w[..Length(w, 0)])
  {
    var e := FirstMatch(cfg, w, 0);
    var index := IndexIn(cfg[e], w, |cfg[e]|);
    NumberIs(cfg, w, e, index);
    Numbered(cfg, w, e, index, Number(cfg, w));
    BytesOfIndex(cfg[e], w, |cfg[e]|);
    CharIs(cfg, Number(cfg, w), e, index, w[..|cfg[e]|]);
  }

  /** A character of one encoding, by its index there. */
  lemma CharFits(schema: Schema, index: int, bytes: seq<int>, w: seq<int>)
    requires SchemaOk(schema) && 0 <= index < All(schema) && bytes == BytesIn(schema, index, |schema|) && w == Padded(bytes)
    ensures Bytes(w) && IsWch(w) && Matches(schema, w) && IndexIn(schema, w, |schema|) == index && Length(w, 0) == |schema|
  {
    var n: nat := |schema|;
    IndexOfBytes(schema, index, n);
    PaddedBytes(bytes, w, n);
    FitsPrefix(schema, bytes, w, n);
    LengthIs(w, 0, n);
  }

  lemma PaddedBytes(bytes: seq<int>, w: seq<int>, n: nat)
    requires n == |bytes| <= WCH_SIZE && AllBytes(bytes) && w == Padded(bytes)
    ensures Bytes(w) && IsWch(w) && (forall k :: 0 <= k < n ==> w[k] == bytes[k] != 0) && (n < |w| ==> w[n] == 0)
  {
  }

  /** The character of a number has that number if and only if no earlier encoding takes its first bytes. */
  lemma NumberOfChar(cfg: seq<Schema>, k: int)
    requires ConfigOk(cfg) && 0 <= k < Total(cfg, |cfg|)
    ensures var e := Locate(cfg, k, 0).0;
      && e < |cfg| && Bytes(CharOf(cfg, k)) && IsWch(CharOf(cfg, k)) && Matches(cfg[e], CharOf(cfg, k))
      && (Number(cfg, CharOf(cfg, k)) == k <==> FirstMatch(cfg, CharOf(cfg, k), 0) == e)
  {
    Located(cfg, k, 0);
    var (e, index) := Locate(cfg, k, 0);
    var bytes := BytesIn(cfg[e], index, |cfg[e]|);
    CharIs(cfg, k, e, index, bytes);
    CharFits(cfg[e], index, bytes, CharOf(cfg, k));
    FirstDecides(cfg, CharOf(cfg, k), e, index, k);
  }

  lemma FirstDecides(cfg: seq<Schema>, w: seq<Byte>, e: nat, index: int, k: int)
    requires ConfigOk(cfg) && e < |cfg| && Matches(cfg[e], w) && index == IndexIn(cfg[e], w, |cfg[e]|) && k == Total(cfg, e) + index
    requires Length(w, 0) == |cfg[e]|
    ensures Number(cfg, w) == k <==> FirstMatch(cfg, w, 0) == e
  {
    var f := FirstMatch(cfg, w, 0);
    Numbered(cfg, w, e, index, k);
    if f == e {
      NumberIs(cfg, w, e, index);
    } else if Length(w, 0) == |cfg[f]| {
      var index1 := IndexIn(cfg[f], w, |cfg[f]|);
      NumberIs(cfg, w, f, index1);
      Numbered(cfg, w, f, index1, Total(cfg, f) + index1);
    }
  }

  predicate Bytes(s: seq<int>) {
    forall i :: 0 <= i < |s| ==> 0 <= s[i] < 256
  }

  lemma {:induction false} LengthIs(w: seq<Byte>, i: nat, n: nat)
    requires i <= n <= |w| && (n < |w| ==> w[n] == 0) && forall k :: i <= k < n ==> w[k] != 0
    ensures Length(w, i) == n
    decreases n - i
  {
    if i < n {
      LengthIs(w, i + 1, n);
    }
  }

  // When the numbering is a bijection.

  ghost predicate Share(p: Plane, q: Plane) {
    exists b: Byte :: Has(p, b) && Has(q, b)
  }

  /** Encoding a takes the first bytes of some character of encoding b. */
  ghost predicate Clash(a: Schema, b: Schema) {
    |a| <= |b| && forall i :: 0 <= i < |a| ==> Share(a[i], b[i])
  }

  ghost predicate RoundTrips(cfg: seq<Schema>, k: int) {
    Bytes(CharOf(cfg, k)) && Number(cfg, CharOf(cfg, k)) == k
  }

  /** Every number is that of its character if and only if no encoding clashes with a later one. */
  lemma DenseNumbering(cfg: seq<Schema>)
    requires ConfigOk(cfg)
    ensures (forall k :: 0 <= k < Total(cfg, |cfg|) ==> RoundTrips(cfg, k)) <==> forall a, b :: 0 <= a < b < |cfg| ==> !Clash(cfg[a], cfg[b])
  {
    forall k | 0 <= k < Total(cfg, |cfg|) && !RoundTrips(cfg, k) ensures exists a, b :: 0 <= a < b < |cfg| && Clash(cfg[a], cfg[b]) {
      NumberOfChar(cfg, k);
      var e, w := Locate(cfg, k, 0).0, CharOf(cfg, k);
      Located(cfg, k, 0);
      CharFits(cfg[e], Locate(cfg, k, 0).1, BytesIn(cfg[e], Locate(cfg, k, 0).1, |cfg[e]|), w);
      BothMatch(cfg[FirstMatch(cfg, w, 0)], cfg[e], w);
    }
    forall a, b | 0 <= a < b < |cfg| && Clash(cfg[a], cfg[b]) ensures exists k :: 0 <= k < Total(cfg, |cfg|) && !RoundTrips(cfg, k) {
      var k := Ambiguous(cfg, a, b);
    }
  }

  lemma BothMatch(a: Schema, b: Schema, w: seq<Byte>)
    requires SchemaOk(a) && SchemaOk(b) && Matches(a, w) && Matches(b, w) && Length(w, 0) == |b|
    ensures Clash(a, b)
  {
    forall i | 0 <= i < |a| ensures w[i] != 0 {
      ByteOfDigit(a[i], w[i]);
    }
    forall i | 0 <= i < |a| ensures Share(a[i], b[i]) {
      assert Has(a[i], w[i]) && Has(b[i], w[i]);
    }
  }

  /** A character of b that starts like one of a, as far as a goes. */
  lemma {:induction false} Shared(a: Schema, b: Schema, n: nat) returns (v: seq<Byte>)
    requires SchemaOk(a) && SchemaOk(b) && Clash(a, b) && n <= |b|
    ensures |v| == n && Fits(b, v, n) && AllBytes(v) && forall i :: 0 <= i < n && i < |a| ==> Has(a[i], v[i])
  {
    v := [];
    if n > 0 {
      v := Shared(a, b, n - 1);
      var x: Byte;
      if n - 1 < |a| {
        assert Share(a[n - 1], b[n - 1]);
        x :| Has(a[n - 1], x) && Has(b[n - 1], x);
      } else {
        AccumulatedGrows(b[n - 1], 0, |b[n - 1]|);
        DigitOfByte(b[n - 1], 0);
        x := ByteOf(b[n - 1], 0);
      }
      ByteOfDigit(b[n - 1], x);
      v := v + [x];
    }
  }

  lemma Ambiguous(cfg: seq<Schema>, a: nat, b: nat) returns (k: int)
    requires ConfigOk(cfg) && a < b < |cfg| && Clash(cfg[a], cfg[b])
    ensures 0 <= k < Total(cfg, |cfg|) && !RoundTrips(cfg, k)
  {
    var n := |cfg[b]|;
    var v := Shared(cfg[a], cfg[b], n);
    var w := Padded(v);
    FitsPrefix(cfg[b], v, w, n);
    var index := IndexIn(cfg[b], w, n);
    k := Total(cfg, b) + index;
    Numbered(cfg, w, b, index, k);
    BytesOfIndex(cfg[b], w, n);
    assert w[..n] == v;
    CharIs(cfg, k, b, index, v);
    NumberOfChar(cfg, k);
    assert Matches(cfg[a], w);
  }

  // Two encodings of high bytes, one byte and two: 0xa1 is a character, and so is 0xa1 0xa1.
  const HIGH: Plane := [Range(0xa1, 0xfe)]
  const SINGLE: Schema := [HIGH]
  const PAIR: Schema := [HIGH, HIGH]
  const ONE_OR_TWO: seq<Schema> := [SINGLE, PAIR]

  /** They clash, so there is a number whose character has another number. */
  lemma OneOrTwoAmbiguous() returns (k: int)
    ensures ConfigOk(ONE_OR_TWO) && Clash(ONE_OR_TWO[0], ONE_OR_TWO[1])
    ensures 0 <= k < Total(ONE_OR_TWO, |ONE_OR_TWO|) && !RoundTrips(ONE_OR_TWO, k)
  {
    OneOrTwoTotal();
    assert Has(HIGH, 0xa1);
    assert Share(HIGH, HIGH);
    k := Ambiguous(ONE_OR_TWO, 0, 1);
  }

  lemma OneOrTwoTotal()
    ensures ConfigOk(ONE_OR_TWO) && Total(ONE_OR_TWO, |ONE_OR_TWO|) == 94 + 94 * 94
  {
    assert Count(HIGH) == 94;
    TimesIs(94, 1);
    TimesIs(94, 94);
    assert Base(SINGLE, 0) == 1 && SINGLE[0] == HIGH;
    assert Base(SINGLE, 1) == Times(94, 1);
    assert Base(PAIR, 0) == 1 && PAIR[0] == PAIR[1] == HIGH;
    assert Base(PAIR, 1) == Times(94, 1);
    assert Base(PAIR, 2) == Times(94, 94);
    assert SchemaOk(SINGLE) && SchemaOk(PAIR);
    assert Total(ONE_OR_TWO, 1) == 94;
  }

  // The encodings of cin/utf-8/sys.cin.
  const TAIL: Plane := [Range(0x80, 0xbf)]
  const THREE_BYTES: Schema := [[Range(0xe0, 0xe0), Range(0xe2, 0xe9), Range(0xee, 0xef)], TAIL, TAIL]
  const TWO_BYTES: Schema := [[Range(0xc2, 0xc5), Range(0xc7, 0xc7), Range(0xcb, 0xcb), Range(0xce, 0xd1)], TAIL]
  const FOUR_BYTES: Schema := [[Range(0xf0, 0xf0)], [Range(0xa0, 0xaa), Range(0xaf, 0xaf)], TAIL, TAIL]
  const UTF8: seq<Schema> := [THREE_BYTES, TWO_BYTES, FOUR_BYTES]

  lemma Utf8Counts()
    ensures All(THREE_BYTES) == 45056 && All(TWO_BYTES) == 640 && All(FOUR_BYTES) == 49152
  {
    assert Count(TAIL) == 64;
    assert Count(THREE_BYTES[0]) == 11 && Count(TWO_BYTES[0]) == 10 && Count(FOUR_BYTES[0]) == 1 && Count(FOUR_BYTES[1]) == 12;
    assert Base(THREE_BYTES, 1) == Times(11, 1) && Base(TWO_BYTES, 1) == Times(10, 1) && Base(FOUR_BYTES, 1) == Times(1, 1);
    TimesIs(11, 1);
    TimesIs(10, 1);
    TimesIs(64, 11);
    TimesIs(64, 704);
    TimesIs(64, 10);
    TimesIs(1, 1);
    TimesIs(12, 1);
    TimesIs(64, 12);
    TimesIs(64, 768);
    assert Base(THREE_BYTES, 2) == 704 && Base(FOUR_BYTES, 2) == 12 && Base(FOUR_BYTES, 3) == 768;
  }

  lemma Utf8Ok()
    ensures ConfigOk(UTF8) && Total(UTF8, |UTF8|) == 94848
  {
    Utf8Counts();
    assert SchemaOk(THREE_BYTES);
    assert SchemaOk(TWO_BYTES);
    assert SchemaOk(FOUR_BYTES);
    assert Total(UTF8, 1) == 45056;
    assert Total(UTF8, 2) == 45696;
  }

  lemma FirstBytesApart(a: Schema, b: Schema)
    requires a != [] && b != [] && forall x: Byte :: Has(a[0], x) ==> !Has(b[0], x)
    ensures !Clash(a, b)
  {
    assert !Share(a[0], b[0]);
  }

  lemma Utf8Apart(a: nat, b: nat)
    requires a < b < |UTF8|
    ensures !Clash(UTF8[a], UTF8[b])
  {
    FirstBytesApart(UTF8[a], UTF8[b]);
  }

  /** Their 94848 characters and the numbers below that are in one-to-one correspondence. */
  lemma Utf8Dense(k: int)
    requires 0 <= k < 94848
    ensures RoundTrips(UTF8, k)
  {
    Utf8Ok();
    forall a: nat, b: nat | a < b < |UTF8| ensures !Clash(UTF8[a], UTF8[b]) {
      Utf8Apart(a, b);
    }
    DenseNumbering(UTF8);
  }

  // The tables.

  /** ccode_t: a plane with its accumulated sizes. */
  datatype CCode = CCode(ranges: Plane, acNum: seq<int>, totalNum: int, base: int)

  const BLANK := CCode([], [], 0, 0)

  function Sizes(p: Plane): seq<int> {
    SizesTo(p, |p|)
  }

  function SizesTo(p: Plane, n: nat): seq<int>
    requires n <= |p|
  {
    seq(n, j requires 0 <= j < n => Accumulated(p, j))
  }

  lemma SizesStep(p: Plane, n: nat)
    requires n < |p|
    ensures SizesTo(p, n + 1) == SizesTo(p, n) + [if n > 0 then SizesTo(p, n)[n - 1] + Size(p[n - 1]) else 0]
  {
  }

  function CodeOf(schema: Schema, i: nat): CCode
    requires i < |schema|
  {
    CCode(schema[i], Sizes(schema[i]), Count(schema[i]), Base(schema, i))
  }

  /** The planes of a table from slot i of encoding e on, up to the first that is empty. */
  function PlanesFrom(ccp: seq<Plane>, e: nat, i: nat): (r: Schema)
    requires |ccp| == N_ENC_SCHEMA * WCH_SIZE && e < N_ENC_SCHEMA && i <= WCH_SIZE
    ensures |r| <= WCH_SIZE - i
    decreases WCH_SIZE - i
  {
    if i == WCH_SIZE || ccp[e * WCH_SIZE + i] == [] then [] else [ccp[e * WCH_SIZE + i]] + PlanesFrom(ccp, e, i + 1)
  }

  /** The encodings of a table, up to the first without planes. */
  function Config(ccp: seq<Plane>, e: nat): (cfg: seq<Schema>)
    requires |ccp| == N_ENC_SCHEMA * WCH_SIZE && e <= N_ENC_SCHEMA
    ensures |cfg| <= N_ENC_SCHEMA - e
    decreases N_ENC_SCHEMA - e
  {
    if e == N_ENC_SCHEMA || ccp[e * WCH_SIZE] == [] then [] else [PlanesFrom(ccp, e, 0)] + Config(ccp, e + 1)
  }

  lemma {:induction false} PlanesAt(ccp: seq<Plane>, e: nat, i: nat, k: nat)
    requires |ccp| == N_ENC_SCHEMA * WCH_SIZE && e < N_ENC_SCHEMA && i <= WCH_SIZE && k < |PlanesFrom(ccp, e, i)|
    ensures PlanesFrom(ccp, e, i)[k] == ccp[e * WCH_SIZE + i + k]
    decreases k
  {
    if k > 0 {
      PlanesAt(ccp, e, i + 1, k - 1);
    }
  }

  lemma {:induction false} ConfigAt(ccp: seq<Plane>, e: nat, k: nat)
    requires |ccp| == N_ENC_SCHEMA * WCH_SIZE && e <= N_ENC_SCHEMA && k < |Config(ccp, e)|
    ensures Config(ccp, e)[k] == PlanesFrom(ccp, e + k, 0) != []
    decreases k
  {
    if k == 0 {
      assert PlanesFrom(ccp, e, 0) != [];
    } else {
      ConfigAt(ccp, e + 1, k - 1);
      assert Config(ccp, e)[k] == Config(ccp, e + 1)[k - 1];
    }
  }

  /** The planes of a table are well formed where there are any. */
  predicate TableOk(ccp: seq<Plane>) {
    |ccp| == N_ENC_SCHEMA * WCH_SIZE && forall i :: 0 <= i < |ccp| && ccp[i] != [] ==> PlaneOk(ccp[i])
  }

  /** The sizes of ranges add up. */
  method InitPlane(ranges: Plane, base: int) returns (c: CCode)
    ensures c == CCode(ranges, Sizes(ranges), Count(ranges), base)
  {
    var acNum, total, j := [], 0, 0;
    while j < |ranges|
      invariant 0 <= j <= |ranges| && total == Accumulated(ranges, j)
      invariant acNum == SizesTo(ranges, j)
    {
      SizesStep(ranges, j);
      acNum := acNum + [if j > 0 then acNum[j - 1] + Size(ranges[j - 1]) else 0];
      total := total + Size(ranges[j]);
      j := j + 1;
    }
    c := CCode(ranges, acNum, total, base);
  }

  /** The first range that has the byte, or their number. */
  method FindRange(ranges: Plane, b: Byte) returns (j: nat)
    ensures j == Holder(ranges, b, 0)
  {
    j := 0;
    while j < |ranges| && !(ranges[j].first <= b && b <= ranges[j].last)
      invariant 0 <= j <= |ranges| && Holder(ranges, b, 0) == Holder(ranges, b, j)
    {
      j := j + 1;
    }
  }

  /** The range a digit falls into. */
  method FindSlot(c: CCode, d: int) returns (s: nat)
    requires c.ranges != [] && c.acNum == Sizes(c.ranges)
    ensures s == Slot(c.ranges, d, 1)
  {
    var j := 1;
    while j < |c.ranges| && d >= c.acNum[j]
      invariant 1 <= j <= |c.ranges| && Slot(c.ranges, d, 1) == Slot(c.ranges, d, j)
    {
      j := j + 1;
    }
    s := j - 1;
  }

  /** What the tables hold of one encoding. */
  datatype Entry = Entry(planes: seq<CCode>, totalChar: int, highestIdx: int)

  const BLANK_ENTRY := Entry([BLANK, BLANK, BLANK, BLANK], 0, 0)

  /** The entry is that of the schema. */
  ghost predicate Holds(entry: Entry, schema: Schema) {
    && |schema| <= WCH_SIZE == |entry.planes|
    && (schema == [] ==> entry == BLANK_ENTRY)
    && (schema != [] ==> entry.totalChar == All(schema) && entry.highestIdx == |schema| - 1)
    && forall n :: Asked(n, entry.planes) ==> Rows(entry.planes, schema, |schema|)
  }

  /** The first n planes are in the table, and nothing behind them. */
  ghost predicate Rows(planes: seq<CCode>, schema: Schema, n: nat)
    requires n <= |schema| <= WCH_SIZE == |planes|
  {
    && (forall i :: 0 <= i < n ==> planes[i] == CodeOf(schema, i))
    && (forall i :: n <= i < WCH_SIZE ==> planes[i] == BLANK)
  }

  lemma RowAt(entry: Entry, schema: Schema, i: nat)
    requires Holds(entry, schema) && i < WCH_SIZE
    ensures entry.planes[i] == if i < |schema| then CodeOf(schema, i) else BLANK
  {
    assert Asked(0, entry.planes);
  }

  lemma RowAdded(planes: seq<CCode>, schema: Schema, i: nat, code: CCode, planes': seq<CCode>)
    requires i < |schema| <= WCH_SIZE == |planes| && Rows(planes, schema, i) && code == CodeOf(schema, i) && planes' == planes[i := code]
    ensures Rows(planes', schema, i + 1)
  {
  }

  lemma NextBase(schema: Schema, i: nat)
    requires i < |schema| && PlaneOk(schema[i])
    ensures Count(schema[i]) * Base(schema, i) == Base(schema, i + 1)
  {
    AccumulatedGrows(schema[i], 0, |schema[i]|);
    TimesIs(Count(schema[i]), Base(schema, i));
  }

  /** The first i planes of the schema are behind. */
  ghost predicate AtPlane(ccp: seq<Plane>, e: nat, i: nat, schema: Schema) {
    TableOk(ccp) && e < N_ENC_SCHEMA && i <= WCH_SIZE && schema == PlanesFrom(ccp, e, 0)
    && forall n :: Asked(n, (e, i)) ==> i + |PlanesFrom(ccp, e, i)| == |schema|
  }

  lemma PlanesGoOn(ccp: seq<Plane>, e: nat, schema: Schema, i: nat, next: nat)
    requires AtPlane(ccp, e, i, schema) && next == i + 1
    ensures i < |schema| <==> i < WCH_SIZE && ccp[e * WCH_SIZE + i] != []
    ensures i < |schema| ==> schema[i] == ccp[e * WCH_SIZE + i] && PlaneOk(schema[i]) && AtPlane(ccp, e, next, schema)
  {
    assert Asked(0, (e, i));
    if i < |schema| {
      PlanesAt(ccp, e, 0, i);
    }
  }

  /** One encoding of ccode_init. */
  method InitSchema(ccp: seq<Plane>, e: nat) returns (entry: Entry)
    requires TableOk(ccp) && e < N_ENC_SCHEMA && ccp[e * WCH_SIZE] != []
    ensures Holds(entry, PlanesFrom(ccp, e, 0))
  {
    ghost var schema := PlanesFrom(ccp, e, 0);
    var planes, i, base := BLANK_ENTRY.planes, 0, 1;
    PlanesGoOn(ccp, e, schema, 0, 1);
    while i < WCH_SIZE && ccp[e * WCH_SIZE + i] != []
      invariant 0 <= i <= |schema| <= |planes| == WCH_SIZE && AtPlane(ccp, e, i, schema)
      invariant Rows(planes, schema, i) && base == Base(schema, i)
    {
      PlanesGoOn(ccp, e, schema, i, i + 1);
      var code := InitPlane(ccp[e * WCH_SIZE + i], base);
      RowAdded(planes, schema, i, code, planes[i := code]);
      NextBase(schema, i);
      planes := planes[i := code];
      base := code.totalNum * code.base;
      i := i + 1;
    }
    PlanesGoOn(ccp, e, schema, i, i + 1);
    entry := Entry(planes, base, i - 1);
  }

  /** Whether the first bytes of w fit an encoding. */
  method MatchOne(entry: Entry, w: seq<Byte>, ghost schema: Schema) returns (yes: bool)
    requires Holds(entry, schema) && IsWch(w)
    ensures yes == (schema != [] && Matches(schema, w))
  {
    var i, found := 0, true;
    while i < WCH_SIZE && i <= entry.highestIdx && found
      invariant 0 <= i <= WCH_SIZE && i <= entry.highestIdx + 1
      invariant schema != [] ==> i <= |schema| && Fits(schema, w, i) && (!found ==> i < |schema| && !Has(schema[i], w[i]))
      invariant schema == [] ==> i == 0
      decreases WCH_SIZE - i, if found then 1 else 0
    {
      RowAt(entry, schema, i);
      var j := FindRange(entry.planes[i].ranges, w[i]);
      if j >= |entry.planes[i].ranges| {
        found := false;
      } else {
        i := i + 1;
      }
    }
    yes := i > entry.highestIdx;
  }

  /** The first i bytes make idx, for callers that do not look into it. */
  ghost predicate IsIndex(schema: Schema, w: seq<Byte>, i: nat, idx: int) {
    i <= |schema| && forall n :: Asked(n, (i, idx)) ==> Fits(schema, w, i) && idx == IndexIn(schema, w, i)
  }

  lemma IndexStep(schema: Schema, w: seq<Byte>, i: nat, n: nat, digit: int, base: int, idx: int, idx': int)
    requires i + 1 == n <= |schema| && n <= |w| && IsIndex(schema, w, i, idx) && Has(schema[i], w[i])
    requires digit == Digit(schema[i], w[i]) && digit >= 0 && base == Base(schema, i) && idx' == idx + digit * base
    ensures IsIndex(schema, w, n, idx')
  {
    assert Asked(0, (i, idx));
    TimesIs(digit, base);
  }

  lemma NotNul(p: Plane, b: Byte)
    requires PlaneOk(p) && Has(p, b)
    ensures b > 0 && Digit(p, b) >= 0
  {
    ByteOfDigit(p, b);
  }

  lemma NoneNul(schema: Schema, w: seq<Byte>)
    requires SchemaOk(schema) && Matches(schema, w)
    ensures forall i :: 0 <= i < |schema| ==> w[i] != 0
  {
    forall i | 0 <= i < |schema| ensures w[i] != 0 {
      NotNul(schema[i], w[i]);
    }
  }

  /** One byte more, if there is a plane for it. */
  method AddByte(row: CCode, b: Byte, idx0: int, ghost schema: Schema, ghost w: seq<Byte>, ghost i: nat) returns (ok: bool, idx: int)
    requires i <= |schema| && i < |w| && b == w[i] && IsIndex(schema, w, i, idx0) && row == (if i < |schema| then CodeOf(schema, i) else BLANK)
    requires i < |schema| ==> PlaneOk(schema[i]) && Has(schema[i], b)
    ensures ok == (i < |schema|) && (ok ==> IsIndex(schema, w, i + 1, idx) && b > 0)
  {
    var j := FindRange(row.ranges, b);
    if j >= |row.ranges| {
      return false, idx0;
    }
    NotNul(schema[i], b);
    var digit := b - row.ranges[j].first + row.acNum[j];
    idx := idx0 + digit * row.base;
    IndexStep(schema, w, i, i + 1, digit, row.base, idx0, idx);
    ok := true;
  }

  /** The index of a character in its encoding, or -1 if it has more bytes. */
  method IndexOne(entry: Entry, w: seq<Byte>, ghost schema: Schema) returns (idx: int)
    requires Holds(entry, schema) && SchemaOk(schema) && IsWch(w) && Matches(schema, w)
    ensures if Length(w, 0) == |schema| then IsIndex(schema, w, |schema|, idx) else idx == -1
  {
    idx := 0;
    var i := 0;
    while i < WCH_SIZE && w[i] != 0
      invariant 0 <= i <= |schema| && IsIndex(schema, w, i, idx)
      invariant forall k :: 0 <= k < i ==> w[k] != 0
    {
      RowAt(entry, schema, i);
      var ok;
      ok, idx := AddByte(entry.planes[i], w[i], idx, schema, w, i);
      if !ok {
        return -1;
      }
      i := i + 1;
    }
    LengthIs(w, 0, i);
    NoneNul(schema, w);
  }

  lemma {:induction false} BytesCount(schema: Schema, index: int, n: nat)
    requires n <= |schema|
    ensures |BytesIn(schema, index, n)| == n
    decreases n
  {
    if n > 0 {
      BytesCount(schema, index - Times(Quotient(index, Base(schema, n - 1)), Base(schema, n - 1)), n - 1);
    }
  }

  lemma DigitWithin(schema: Schema, index: int, i: nat, n: nat, base: int, d: int, low: int)
    requires i + 1 == n <= |schema| && SchemaOk(schema) && 0 <= index < Base(schema, n) && base == Base(schema, i)
    requires d == Quotient(index, base) && low == index - Times(d, base)
    ensures base > 0 && 0 <= d < Count(schema[i]) < 256 && 0 <= low < base && 0 < ByteOf(schema[i], d) < 256
  {
    BaseGrows(schema, i);
    QuotientWithin(index, base, Count(schema[i]));
    CountSmall(schema[i]);
    DigitOfByte(schema[i], d);
  }

  lemma DigitTaken(schema: Schema, index: int, i: nat, n: nat, base: int, d: int, low: int, bytes: seq<int>, before: seq<int>, b: int)
    requires i + 1 == n <= |schema| && SchemaOk(schema) && 0 <= index < Base(schema, n) && base == Base(schema, i)
    requires d == Quotient(index, base) && low == index - Times(d, base)
    requires bytes == BytesIn(schema, index, n) && before == BytesIn(schema, low, i) && b == ByteOf(schema[i], d)
    ensures base > 0 && 0 <= d < Count(schema[i]) < 256 && 0 <= low < base && 0 < b < 256
    ensures |before| == i && bytes == before + [b]
  {
    DigitWithin(schema, index, i, n, base, d, low);
    BytesStep(schema, index, n, i, base, d, low);
    BytesCount(schema, low, i);
  }

  /** The digit is put into a byte. */
  method Divide(index: nat, base: nat) returns (ch: nat, low: int)
    requires base > 0 && Quotient(index, base) < 256
    ensures ch == Quotient(index, base) && low == index - Times(ch, base)
  {
    QuotientIs(index, base);
    ch := index / base % 256;
    low := index - ch * base;
    TimesIs(ch, base);
  }

  /** The bytes are those of the index, for callers that do not look into them. */
  ghost predicate AreBytes(schema: Schema, index: int, i: nat, bytes: seq<int>) {
    i <= |schema| && |bytes| == i && forall n :: Asked(n, (index, i)) ==> bytes == BytesIn(schema, index, i)
  }

  /** The byte of the highest digit, and what is left of the index. */
  method TakeDigit(row: CCode, rest: int, ghost schema: Schema, ghost i: nat, ghost n: nat, ghost bytes: seq<int>)
    returns (b: Byte, low: int, ghost before: seq<int>)
    requires i + 1 == n <= |schema| && SchemaOk(schema) && row == CodeOf(schema, i) && 0 <= rest < Base(schema, n)
    requires AreBytes(schema, rest, n, bytes)
    ensures 0 <= low < Base(schema, i) && AreBytes(schema, low, i, before) && bytes == before + [b]
  {
    assert Asked(0, (rest, n));
    ghost var d := Quotient(rest, row.base);
    ghost var low0 := rest - Times(d, row.base);
    before := BytesIn(schema, low0, i);
    DigitTaken(schema, rest, i, n, row.base, d, low0, bytes, before, ByteOf(schema[i], d));
    var ch;
    ch, low := Divide(rest, row.base);
    assert low == low0;
    var s := FindSlot(row, ch);
    b := ch - row.acNum[s] + row.ranges[s].first;
  }

  lemma PrefixStep(bytes: seq<int>, before: seq<int>, left: seq<int>, b: int, i: nat)
    requires i < |bytes| && before == bytes[..i + 1] == left + [b] && |left| == i
    ensures left == bytes[..i] && bytes[i] == b
  {
    assert before[i] == b && before[..i] == left;
  }

  /** The bytes of a character, from the last to the first. */
  method WriteBytes(entry: Entry, index: int, mbs: array<Byte>, ghost schema: Schema, ghost bytes: seq<int>)
    requires Holds(entry, schema) && SchemaOk(schema) && 0 <= index < All(schema) && |schema| <= mbs.Length
    requires AreBytes(schema, index, |schema|, bytes)
    modifies mbs
    ensures forall k :: 0 <= k < |bytes| ==> mbs[k] == bytes[k]
    ensures forall k :: |bytes| <= k < mbs.Length ==> mbs[k] == old(mbs[k])
  {
    var rest, i := index, entry.highestIdx + 1;
    ghost var left := bytes;
    while i > 0
      invariant 0 <= i <= |bytes| && 0 <= rest < Base(schema, i) && AreBytes(schema, rest, i, left) && left == bytes[..i]
      invariant forall k :: i <= k < |bytes| ==> mbs[k] == bytes[k]
      invariant forall k :: |bytes| <= k < mbs.Length ==> mbs[k] == old(mbs[k])
    {
      i := i - 1;
      RowAt(entry, schema, i);
      var b;
      ghost var before := left;
      b, rest, left := TakeDigit(entry.planes[i], rest, schema, i, i + 1, left);
      PrefixStep(bytes, before, left, b, i);
      mbs[i] := b;
    }
  }

  lemma ConfigGoesOn(ccp: seq<Plane>, cfg: seq<Schema>, e: nat)
    requires TableOk(ccp) && cfg == Config(ccp, 0) && e <= N_ENC_SCHEMA && e + |Config(ccp, e)| == |cfg|
    ensures e < |cfg| <==> e < N_ENC_SCHEMA && ccp[e * WCH_SIZE] != []
    ensures e < |cfg| ==> cfg[e] == PlanesFrom(ccp, e, 0) && e + 1 + |Config(ccp, e + 1)| == |cfg|
  {
    if e < |cfg| {
      ConfigAt(ccp, 0, e);
    }
  }

  /** The tables are those of the encodings. */
  ghost predicate TablesHold(entries: seq<Entry>, cfg: seq<Schema>) {
    |entries| == N_ENC_SCHEMA && |cfg| <= N_ENC_SCHEMA && forall n :: Asked(n, (entries, cfg)) ==>
      forall e :: 0 <= e < N_ENC_SCHEMA ==> Holds(entries[e], if e < |cfg| then cfg[e] else [])
  }

  lemma EntryAt(entries: seq<Entry>, cfg: seq<Schema>, e: nat)
    requires TablesHold(entries, cfg) && e < N_ENC_SCHEMA
    ensures Holds(entries[e], if e < |cfg| then cfg[e] else [])
    ensures e >= |cfg| ==> entries[e] == BLANK_ENTRY
    ensures e < |cfg| && cfg[e] != [] ==> entries[e].totalChar == All(cfg[e]) && entries[e].highestIdx == |cfg[e]| - 1
  {
    assert Asked(0, (entries, cfg));
  }

  /** Looking for the encoding of number idx: the first e are not it, and rest is what they leave. */
  ghost predicate Seeking(cfg: seq<Schema>, idx: int, e: nat, rest: int) {
    forall n :: Asked(n, (e, rest)) ==>
      if idx < 0 then rest < 0
      else if e <= |cfg| then 0 <= rest == idx - Total(cfg, e) && Locate(cfg, idx, 0) == Locate(cfg, rest, e)
      else idx >= Total(cfg, |cfg|)
  }

  lemma SeekStep(cfg: seq<Schema>, idx: int, e: nat, next: nat, rest: int, total: int)
    requires ConfigOk(cfg) && Seeking(cfg, idx, e, rest) && next == e + 1
    requires if e < |cfg| then total == All(cfg[e]) else total == 0
    requires !(0 <= rest < total)
    ensures Seeking(cfg, idx, next, rest - total)
  {
    assert Asked(0, (e, rest));
    if e < |cfg| {
      BaseGrows(cfg[e], |cfg[e]|);
    }
  }

  lemma SeekFound(cfg: seq<Schema>, idx: int, e: nat, rest: int)
    requires ConfigOk(cfg) && Seeking(cfg, idx, e, rest) && e < |cfg| && 0 <= rest < All(cfg[e])
    ensures Locate(cfg, idx, 0) == (e, rest) && 0 <= idx < Total(cfg, |cfg|)
  {
    assert Asked(0, (e, rest));
    TotalGrows(cfg, e, |cfg|);
  }

  lemma SeekFailed(cfg: seq<Schema>, idx: int, e: nat, rest: int)
    requires ConfigOk(cfg) && Seeking(cfg, idx, e, rest) && |cfg| <= e
    ensures idx < 0 || idx >= Total(cfg, |cfg|)
  {
    assert Asked(0, (e, rest));
  }

  /** The encoding of a number, and the index in it; no number is so small that taking the totals off wraps round. */
  method FindEntry(entries: seq<Entry>, idx: int, ghost cfg: seq<Schema>) returns (e: nat, rest: int)
    requires TablesHold(entries, cfg) && ConfigOk(cfg) && -0x8000_0000 <= idx - Total(cfg, |cfg|)
    ensures e <= N_ENC_SCHEMA && (e < N_ENC_SCHEMA <==> 0 <= idx < Total(cfg, |cfg|))
    ensures e < N_ENC_SCHEMA ==> e < |cfg| && (e, rest) == Locate(cfg, idx, 0) && 0 <= rest < All(cfg[e])
  {
    e, rest := 0, idx;
    while e < N_ENC_SCHEMA && !(0 <= rest < entries[e].totalChar)
      invariant 0 <= e <= N_ENC_SCHEMA && Seeking(cfg, idx, e, rest)
    {
      EntryAt(entries, cfg, e);
      SeekStep(cfg, idx, e, e + 1, rest, entries[e].totalChar);
      rest := rest - entries[e].totalChar;
      e := e + 1;
    }
    if e < N_ENC_SCHEMA {
      EntryAt(entries, cfg, e);
      SeekFound(cfg, idx, e, rest);
    } else {
      SeekFailed(cfg, idx, e, rest);
    }
  }

  lemma EntryAdded(entries: seq<Entry>, cfg: seq<Schema>, schema: Schema, entry: Entry, cfg': seq<Schema>)
    requires TablesHold(entries, cfg) && |cfg| < N_ENC_SCHEMA && Holds(entry, schema) && cfg' == cfg + [schema]
    ensures TablesHold(entries[|cfg| := entry], cfg')
  {
    assert Asked(0, (entries, cfg));
  }

  lemma Indexed(cfg: seq<Schema>, w: seq<Byte>, e: nat, idx: int)
    requires ConfigOk(cfg) && e == FirstMatch(cfg, w, 0) < |cfg|
    requires if Length(w, 0) == |cfg[e]| then IsIndex(cfg[e], w, |cfg[e]|, idx) else idx == -1
    ensures if idx == -1 then Number(cfg, w) == -1 else 0 <= idx < All(cfg[e]) && IsRest(cfg, e, idx, Number(cfg, w))
  {
    var n: nat := |cfg[e]|;
    IndexBound(cfg[e], w, n);
    assert Asked(0, (n, idx));
  }

  /** What the first e encodings have makes idx up to k. */
  ghost predicate IsRest(cfg: seq<Schema>, e: nat, idx: int, k: int) {
    e <= |cfg| && forall n :: Asked(n, (e, idx)) ==> idx + Total(cfg, e) == k
  }

  lemma RestStep(cfg: seq<Schema>, e: nat, n: nat, idx: int, idx': int, k: int)
    requires e + 1 == n && IsRest(cfg, n, idx, k) && idx' == idx + All(cfg[e])
    ensures IsRest(cfg, e, idx', k)
  {
    assert Asked(0, (n, idx));
  }

  method AddTotals(entries: seq<Entry>, e0: nat, idx0: int, ghost cfg: seq<Schema>, ghost k: int) returns (idx: int)
    requires TablesHold(entries, cfg) && ConfigOk(cfg) && e0 < |cfg| && IsRest(cfg, e0, idx0, k)
    ensures idx == k
  {
    var e: nat := e0;
    idx := idx0;
    while e > 0
      invariant 0 <= e < |cfg| && IsRest(cfg, e, idx, k)
    {
      e := e - 1;
      EntryAt(entries, cfg, e);
      RestStep(cfg, e, e + 1, idx, idx + entries[e].totalChar, k);
      idx := idx + entries[e].totalChar;
    }
    assert Asked(0, (e, idx));
  }

  class CharTable {
    var entries: seq<Entry>

    constructor ()
      ensures Ready([])
    {
      entries := [BLANK_ENTRY, BLANK_ENTRY, BLANK_ENTRY];
    }

    ghost predicate Ready(cfg: seq<Schema>)
      reads this
    {
      TablesHold(entries, cfg)
    }

    /** ccode_init: once, on blank tables. */
    method Init(ccp: seq<Plane>)
      requires TableOk(ccp) && Ready([])
      modifies this
      ensures Ready(Config(ccp, 0))
    {
      ghost var cfg := Config(ccp, 0);
      var e := 0;
      while e < N_ENC_SCHEMA
        invariant 0 <= e <= |cfg| && e + |Config(ccp, e)| == |cfg| && TablesHold(entries, cfg[..e])
      {
        ConfigGoesOn(ccp, cfg, e);
        if ccp[e * WCH_SIZE] == [] {
          break;
        }
        var entry := InitSchema(ccp, e);
        EntryAdded(entries, cfg[..e], cfg[e], entry, cfg[..e + 1]);
        entries := entries[e := entry];
        e := e + 1;
      }
      assert cfg[..e] == cfg;
    }

    /** match_encoding, by way of mbtowch_enc: one more than the number of the encoding, or 0. */
    method MatchEncoding(w: seq<Byte>, ghost cfg: seq<Schema>) returns (schema: nat)
      requires Ready(cfg) && IsWch(w) && forall e :: 0 <= e < |cfg| ==> cfg[e] != []
      ensures schema == if FirstMatch(cfg, w, 0) == |cfg| then 0 else FirstMatch(cfg, w, 0) + 1
    {
      var e := 0;
      while e < N_ENC_SCHEMA
        invariant 0 <= e <= N_ENC_SCHEMA
        invariant if e <= |cfg| then FirstMatch(cfg, w, 0) == FirstMatch(cfg, w, e) else FirstMatch(cfg, w, 0) == |cfg|
      {
        EntryAt(entries, cfg, e);
        var yes := MatchOne(entries[e], w, if e < |cfg| then cfg[e] else []);
        if yes {
          return e + 1;
        }
        e := e + 1;
      }
      schema := 0;
    }

    /** ccode_to_idx. */
    method ToIdx(w: seq<Byte>, ghost cfg: seq<Schema>) returns (idx: int)
      requires Ready(cfg) && ConfigOk(cfg) && IsWch(w)
      ensures idx == Number(cfg, w)
    {
      var match1 := MatchEncoding(w, cfg);
      if match1 == 0 {
        return -1;
      }
      var e: nat := match1 - 1;
      EntryAt(entries, cfg, e);
      idx := IndexOne(entries[e], w, cfg[e]);
      Indexed(cfg, w, e, idx);
      if idx == -1 {
        return;
      }
      if idx > entries[e].totalChar {
        return -1;
      }
      idx := AddTotals(entries, e, idx, cfg, Number(cfg, w));
    }

    /** ccode_to_char. */
    method ToChar(idx: int, mbs: array<Byte>, ghost cfg: seq<Schema>) returns (ok: bool)
      requires Ready(cfg) && ConfigOk(cfg) && -0x8000_0000 <= idx - Total(cfg, |cfg|)
      modifies mbs
      ensures ok == Writable(cfg, idx, mbs.Length)
      ensures ok && mbs.Length == WCH_SIZE ==> mbs[..] == CharOf(cfg, idx)
      ensures !ok ==> mbs[..] == old(mbs[..])
    {
      var e, rest := FindEntry(entries, idx, cfg);
      if e < N_ENC_SCHEMA {
        EntryAt(entries, cfg, e);
      }
      if e == N_ENC_SCHEMA || entries[e].highestIdx >= mbs.Length {
        return false;
      }
      ok := true;
      Clear(mbs);
      ghost var bytes := BytesIn(cfg[e], rest, |cfg[e]|);
      BytesCount(cfg[e], rest, |cfg[e]|);
      WriteBytes(entries[e], rest, mbs, cfg[e], bytes);
      CharIs(cfg, idx, e, rest, bytes);
      PaddedIs(mbs[..], bytes);
    }
  }

  predicate Writable(cfg: seq<Schema>, idx: int, size: nat) {
    var e := Locate(cfg, idx, 0).0;
    0 <= idx < Total(cfg, |cfg|) && e < |cfg| && |cfg[e]| <= size
  }

  method Clear(mbs: array<Byte>)
    modifies mbs
    ensures forall i :: 0 <= i < mbs.Length ==> mbs[i] == 0
  {
    var k := 0;
    while k < mbs.Length
      invariant 0 <= k <= mbs.Length && forall i :: 0 <= i < k ==> mbs[i] == 0
    {
      mbs[k] := 0;
      k := k + 1;
    }
  }

  lemma PaddedIs(s: seq<int>, bytes: seq<int>)
    requires |bytes| <= |s|
    requires forall k :: 0 <= k < |bytes| ==> s[k] == bytes[k]
    requires forall k :: |bytes| <= k < |s| ==> s[k] == 0
    ensures |s| == WCH_SIZE ==> s == Padded(bytes)
  {
  }
}
