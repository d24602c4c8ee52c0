/** Writing a frame (src/lib/IMdkit/FrameMgr.c, _FrameMgrPutToken). */
module FrameEncode {
  import opened FrameTemplate
  import opened FrameCursor
  import opened FrameTokens
  import opened FrameWalk
  import opened FrameSetup
  import opened FrameRequests

  /** A number as the w bytes it takes on the wire: what does not fit is cut off, and the
      byte order is the host's or, with byte_swap, the other one. */
  function NumBytes(big: bool, w: int, v: int): seq<Byte> {
    var v1 := v / 256;
    var v2 := v1 / 256;
    var b0, b1, b2, b3 := v % 256, v1 % 256, v2 % 256, v2 / 256 % 256;
    match w
    case 1 => [b0]
    case 2 => if big then [b1, b0] else [b0, b1]
    case 4 => if big then [b3, b2, b1, b0] else [b0, b1, b2, b3]
    case _ => []
  }

  function BytesNum(big: bool, bytes: seq<Byte>): int {
    var b: seq<int> := bytes;
    match |b|
    case 1 => b[0]
    case 2 => if big then b[0] * 256 + b[1] else b[1] * 256 + b[0]
    case 4 =>
      if big then b[0] * 16777216 + b[1] * 65536 + b[2] * 256 + b[3]
      else b[3] * 16777216 + b[2] * 65536 + b[1] * 256 + b[0]
    case _ => 0
  }

  function Limit(w: int): int {
    match w case 1 => 256 case 2 => 65536 case 4 => 4294967296 case _ => 1
  }

  lemma LowByte(v: int, m: int)
    requires m == 256 || m == 65536 || m == 16777216
    ensures v % (256 * m) == v / 256 % m * 256 + v % 256
  {
  }

  /** Reading a number back gives it modulo the width, in both byte orders. */
  lemma NumRoundTrip(big: bool, w: int, v: int)
    requires w == 1 || w == 2 || w == 4
    ensures |NumBytes(big, w, v)| == w && BytesNum(big, NumBytes(big, w, v)) == v % Limit(w)
  {
    if w == 2 {
      LowByte(v, 256);
    } else if w == 4 {
      LowByte(v, 16777216);
      LowByte(v / 256, 65536);
      LowByte(v / 256 / 256, 256);
    }
  }

  function Write(area: seq<Byte>, at: nat, b: seq<Byte>): (r: seq<Byte>)
    ensures |r| == |area|
  {
    if at + |b| <= |area| then area[..at] + b + area[at + |b|..] else area
  }

  function TokenBytes(big: bool, k: Token): seq<Byte> {
    match k
    case BitsToken(w, v) => NumBytes(big, w, v)
    case CountToken(w, v) => NumBytes(big, w, v)
    case BytesToken(b) => b
    case PadToken(_) => []
  }

  predicate TokenOk(k: Token) {
    match k
    case BitsToken(w, _) => w == 1 || w == 2 || w == 4
    case CountToken(w, v) => (w == 1 || w == 2 || w == 4) && v >= 0
    case BytesToken(_) => true
    case PadToken(n) => n >= 0
  }

  predicate TokensOk(ks: seq<Token>) {
    forall i :: 0 <= i < |ks| ==> TokenOk(ks[i])
  }

  /** The buffer after the tokens are written from `at` on; padding bytes keep what they held. */
  function Stamp(big: bool, area: seq<Byte>, at: int, ks: seq<Token>): (r: seq<Byte>)
    ensures |r| == |area|
    decreases |ks|
  {
    if ks == [] || at < 0 then area
    else Stamp(big, Write(area, at, TokenBytes(big, ks[0])), at + TokenSize(ks[0]), ks[1..])
  }

  lemma {:induction false} StampConcat(big: bool, area: seq<Byte>, at: nat, a: seq<Token>, b: seq<Token>)
    requires TokensOk(a)
    ensures Stamp(big, area, at, a + b) == Stamp(big, Stamp(big, area, at, a), at + TokensSize(a), b)
    decreases |a|
  {
    if a == [] {
      assert a + b == b;
    } else {
      assert TokenOk(a[0]);
      assert (a + b)[0] == a[0] && (a + b)[1..] == a[1..] + b;
      StampConcat(big, Write(area, at, TokenBytes(big, a[0])), at + TokenSize(a[0]), a[1..], b);
    }
  }

  /** The buffer holds the tokens from `at` on. */
  predicate Holds(big: bool, area: seq<Byte>, at: int, ks: seq<Token>)
    decreases |ks|
  {
    0 <= at <= |area| &&
    (ks != [] ==>
      && (ks[0].PadToken? || (at + |TokenBytes(big, ks[0])| <= |area| && area[at..at + |TokenBytes(big, ks[0])|] == TokenBytes(big, ks[0])))
      && Holds(big, area, at + TokenSize(ks[0]), ks[1..]))
  }

  lemma {:induction false} SizeNat(ks: seq<Token>)
    requires TokensOk(ks)
    ensures TokensSize(ks) >= 0
  {
    if ks != [] {
      assert TokenOk(ks[0]);
      SizeNat(ks[1..]);
    }
  }

  lemma {:induction false} StampOutside(big: bool, area: seq<Byte>, at: nat, ks: seq<Token>)
    requires TokensOk(ks) && at + TokensSize(ks) <= |area|
    ensures at <= |area| && Stamp(big, area, at, ks)[..at] == area[..at]
    decreases |ks|
  {
    SizeNat(ks);
    if ks != [] {
      assert TokenOk(ks[0]);
      var area1 := Write(area, at, TokenBytes(big, ks[0]));
      StampOutside(big, area1, at + TokenSize(ks[0]), ks[1..]);
      var r := Stamp(big, area, at, ks);
      assert r[..at] == r[..at + TokenSize(ks[0])][..at];
      assert area1[..at + TokenSize(ks[0])][..at] == area[..at];
    }
  }

  lemma SameSlice(r: seq<Byte>, r2: seq<Byte>, at: nat, n: nat, next: nat)
    requires at + n <= next <= |r| == |r2| && r[..next] == r2[..next]
    ensures r[at..at + n] == r2[at..at + n]
  {
    assert r[at..at + n] == r[..next][at..at + n];
    assert r2[at..at + n] == r2[..next][at..at + n];
  }

  lemma WriteSlice(area: seq<Byte>, at: nat, b: seq<Byte>)
    requires at + |b| <= |area|
    ensures Write(area, at, b)[at..at + |b|] == b && Write(area, at, b)[..at] == area[..at]
  {
  }

  /** What was written can be read. */
  /** What comes after does not touch the bytes of the first token. */
  lemma {:induction false} FirstStays(big: bool, area: seq<Byte>, area1: seq<Byte>, at: nat, b: seq<Byte>, next: nat, ks: seq<Token>)
    requires area1 == Write(area, at, b) && next == at + |b| && TokensOk(ks) && next + TokensSize(ks) <= |area|
    ensures at + |b| <= |area| && Stamp(big, area1, next, ks)[at..at + |b|] == b
  {
    SizeNat(ks);
    WriteSlice(area, at, b);
    StampOutside(big, area1, next, ks);
    SameSlice(Stamp(big, area1, next, ks), area1, at, |b|, next);
  }

  lemma {:induction false} StampHolds(big: bool, area: seq<Byte>, at: nat, ks: seq<Token>)
    requires TokensOk(ks) && at + TokensSize(ks) <= |area|
    ensures Holds(big, Stamp(big, area, at, ks), at, ks)
    decreases |ks|
  {
    SizeNat(ks);
    if ks != [] {
      assert TokenOk(ks[0]);
      SizeNat(ks[1..]);
      var b, next := TokenBytes(big, ks[0]), at + TokenSize(ks[0]);
      var area1 := Write(area, at, b);
      StampHolds(big, area1, next, ks[1..]);
      if !ks[0].PadToken? {
        FirstStays(big, area, area1, at, b, next, ks[1..]);
      }
    }
  }

  // One call of PutToken.

  /** What a caller hands over: a number, or a pointer to bytes. */
  datatype Datum = Datum(num: int, bytes: seq<Byte>)

  datatype Status = Success | InvalidCall | CannotCalc | Eod | Bug

  predicate IsData(k: Token) {
    k.BitsToken? || k.BytesToken?
  }

  predicate HasData(ks: seq<Token>) {
    ks != [] && (IsData(ks[0]) || HasData(ks[1..]))
  }

  predicate Suits(rest: seq<Token>, x: Datum) {
    if rest == [] then true
    else if IsData(rest[0]) then rest[0].BytesToken? ==> |rest[0].b| <= |x.bytes|
    else Suits(rest[1..], x)
  }

  /** The tokens one call writes: the counters and paddings before the next datum, and
      that datum with the caller's value. */
  function Given(rest: seq<Token>, x: Datum): seq<Token>
    requires Suits(rest, x)
  {
    if rest == [] then []
    else match rest[0]
      case BitsToken(w, _) => [BitsToken(w, x.num)]
      case BytesToken(b) => [BytesToken(x.bytes[..|b|])]
      case _ => [rest[0]] + Given(rest[1..], x)
  }

  function Remains(rest: seq<Token>): seq<Token> {
    if rest == [] then [] else if IsData(rest[0]) then rest[1..] else Remains(rest[1..])
  }

  /** Only a call that finds neither a datum nor a counter reports the end. */
  function StatusOf(rest: seq<Token>): Status {
    if rest == [] then Eod
    else if rest[0].PadToken? then StatusOf(rest[1..])
    else Success
  }

  lemma {:induction false} GivenSize(rest: seq<Token>, x: Datum)
    requires Suits(rest, x)
    ensures TokensSize(Given(rest, x)) + TokensSize(Remains(rest)) == TokensSize(rest)
  {
    if rest != [] {
      if IsData(rest[0]) {
        var k := if rest[0].BitsToken? then BitsToken(rest[0].w, x.num) else BytesToken(x.bytes[..|rest[0].b|]);
        assert TokensSize([k]) == TokenSize(k) + TokensSize([]);
      } else {
        GivenSize(rest[1..], x);
        assert ([rest[0]] + Given(rest[1..], x))[1..] == Given(rest[1..], x);
      }
    }
  }

  /** All the tokens of a frame have a size. */
  lemma {:induction false} ElemTokensOk(t: Template, i: int, f: Field)
    requires CodecOk(t) && 0 <= i < |t| - 1
    ensures TokensOk(ElemTokens(t, i, f))
    decreases t, 1
  {
    assert RecordCodes(t, i);
    if Points(t, i) {
      FrameTokensOk(t[i + 1].sub, FieldsOf(f), 0);
    }
  }

  lemma {:induction false} ElemsTokensOk(t: Template, i: int, es: seq<Field>)
    requires CodecOk(t) && 0 <= i < |t| - 1
    ensures TokensOk(ElemsTokens(t, i, es))
    decreases t, 2, |es|
  {
    if es != [] {
      ElemTokensOk(t, i, es[0]);
      ElemsTokensOk(t, i, es[1..]);
    }
  }

  lemma {:induction false} FrameTokensOk(t: Template, d: seq<Field>, i: int)
    requires CodecOk(t) && 0 <= i
    ensures TokensOk(TokensFrom(t, d, i))
    decreases t, 4, |t| - i
  {
    if i < |t| && i < Increment(t, i) {
      FrameTokensOk(t, d, Increment(t, i));
      assert RecordOk(t, i) && RecordCodes(t, i);
      if t[i].Iter? {
        ElemsTokensOk(t, i + 1, ElemsOf(FieldAt(d, i)));
      } else {
        ElemTokensOk(t, i, FieldAt(d, i));
      }
    }
  }

  /** The outcome of a call: the tokens it writes are stamped into the buffer. */
  ghost predicate Puts(big: bool, rest: seq<Token>, x: Datum, area: seq<Byte>, idx: int, st: Status, area': seq<Byte>, idx': int)
    requires Suits(rest, x)
  {
    && st == StatusOf(rest)
    && area' == Stamp(big, area, idx, Given(rest, x))
    && idx' == idx + TokensSize(Given(rest, x))
  }

  function Fill(k: Token, x: Datum): Token
    requires k.BytesToken? ==> |k.b| <= |x.bytes|
  {
    match k
    case BitsToken(w, _) => BitsToken(w, x.num)
    case BytesToken(b) => BytesToken(x.bytes[..|b|])
    case _ => k
  }

  lemma PutsDatum(big: bool, rest: seq<Token>, x: Datum, area: seq<Byte>, idx: nat, k: Token, area': seq<Byte>, idx': nat)
    requires rest != [] && IsData(rest[0]) && Suits(rest, x) && k == Fill(rest[0], x)
    requires area' == Write(area, idx, TokenBytes(big, k)) && idx' == idx + TokenSize(k)
    ensures Puts(big, rest, x, area, idx, Success, area', idx')
  {
    assert Given(rest, x) == [k];
    assert TokensSize([k]) == TokenSize(k) + TokensSize([]);
    assert [k][1..] == [];
  }

  lemma PutsAfter(big: bool, rest: seq<Token>, x: Datum, area: seq<Byte>, idx: nat, area1: seq<Byte>, idx1: nat,
                  st: Status, area': seq<Byte>, idx': nat)
    requires rest != [] && !IsData(rest[0]) && Suits(rest, x)
    requires area1 == Write(area, idx, TokenBytes(big, rest[0])) && idx1 == idx + TokenSize(rest[0])
    requires Puts(big, rest[1..], x, area1, idx1, st, area', idx')
    ensures Puts(big, rest, x, area, idx, if rest[0].PadToken? then st else Success, area', idx')
  {
    assert Given(rest, x) == [rest[0]] + Given(rest[1..], x);
    assert Given(rest, x)[1..] == Given(rest[1..], x);
  }

  /** The cursor's step, and what it leaves for the buffer. */
  lemma StepIs(t: Template, s: Inst, d: seq<Field>, info: Info, s': Inst, rest: seq<Token>)
    requires CodecOk(t) && Filled(t, s, d) && Placed(t, s) && (info, s') == InstNext(t, s)
    requires rest == Rest(t, s, d) && TokensOk(rest)
    ensures Filled(t, s', d)
    ensures rest == [] ==> info.End? && Rest(t, s', d) == []
    ensures rest != [] ==>
      && Reports(info, rest[0]) && TokenOk(rest[0]) && Placed(t, s') && Rest(t, s', d) == rest[1..] && TokensOk(rest[1..])
      && TokensSize(rest) == TokenSize(rest[0]) + TokensSize(rest[1..]) && 0 <= TokensSize(rest[1..])
      && (HasData(rest) && !IsData(rest[0]) ==> HasData(rest[1..]))
  {
    InstNextIs(t, s, d, info, s');
    if rest != [] {
      assert TokenOk(rest[0]);
      SizeNat(rest[1..]);
    }
  }

  // A whole frame.

  function DatumOf(k: Token): Datum {
    match k case BitsToken(_, v) => Datum(v, []) case BytesToken(b) => Datum(0, b) case _ => Datum(0, [])
  }

  /** The data a writer hands over for a row of tokens. */
  function DataOf(ks: seq<Token>): seq<Datum> {
    if ks == [] then [] else (if IsData(ks[0]) then [DatumOf(ks[0])] else []) + DataOf(ks[1..])
  }

  /** The tokens after the last datum; no call ever gets to them. */
  function Trailing(ks: seq<Token>): seq<Token> {
    if ks == [] || !HasData(ks) then ks else Trailing(ks[1..])
  }

  function Written(ks: seq<Token>): seq<Token>
  {
    if ks == [] || !HasData(ks) then [] else [ks[0]] + Written(ks[1..])
  }

  lemma {:induction false} WrittenTrailing(ks: seq<Token>)
    ensures Written(ks) + Trailing(ks) == ks && !HasData(Trailing(ks))
  {
    if ks != [] && HasData(ks) {
      WrittenTrailing(ks[1..]);
      assert Written(ks) + Trailing(ks) == [ks[0]] + (Written(ks[1..]) + Trailing(ks[1..]));
    }
  }

  lemma {:induction false} DataFree(ks: seq<Token>)
    ensures HasData(ks) <==> DataOf(ks) != []
  {
    if ks != [] {
      DataFree(ks[1..]);
    }
  }

  /** A call with the next datum of the row writes the row up to it. */
  lemma {:induction false} GivenNext(rest: seq<Token>, x: Datum)
    requires DataOf(rest) != [] && x == DataOf(rest)[0]
    ensures Suits(rest, x) && Given(rest, x) + Remains(rest) == rest && StatusOf(rest) == Success
  {
    if IsData(rest[0]) {
      assert DataOf(rest) == [DatumOf(rest[0])] + DataOf(rest[1..]);
      assert rest[0].BytesToken? ==> rest[0].b[..|rest[0].b|] == rest[0].b;
      assert Given(rest, x) == [rest[0]];
    } else {
      assert DataOf(rest) == DataOf(rest[1..]);
      GivenNext(rest[1..], x);
      assert Given(rest, x) + Remains(rest) == [rest[0]] + (Given(rest[1..], x) + Remains(rest[1..]));
    }
  }

  lemma {:induction false} RemainsNext(rest: seq<Token>)
    requires HasData(rest)
    ensures DataOf(rest) != [] && DataOf(Remains(rest)) == DataOf(rest)[1..] && Trailing(Remains(rest)) == Trailing(rest)
  {
    DataFree(rest);
    if IsData(rest[0]) {
      assert DataOf(rest) == [DatumOf(rest[0])] + DataOf(rest[1..]);
    } else {
      assert DataOf(rest) == DataOf(rest[1..]);
      RemainsNext(rest[1..]);
    }
  }

  /** One turn of a writer's loop. */
  lemma PutAllStep(big: bool, area0: seq<Byte>, idx0: nat, ks: seq<Token>, done: seq<Token>, rest: seq<Token>, x: Datum,
                   area: seq<Byte>, idx: int, st: Status, area': seq<Byte>, idx': int)
    requires TokensOk(ks) && done + rest == ks && DataOf(rest) != [] && DataOf(rest)[0] == x && Suits(rest, x)
    requires area == Stamp(big, area0, idx0, done) && idx == idx0 + TokensSize(done)
    requires Puts(big, rest, x, area, idx, st, area', idx')
    ensures st == Success && done + Given(rest, x) + Remains(rest) == ks
    ensures area' == Stamp(big, area0, idx0, done + Given(rest, x)) && idx' == idx0 + TokensSize(done + Given(rest, x))
  {
    GivenNext(rest, x);
    forall i | 0 <= i < |done| ensures TokenOk(done[i]) {
      assert done[i] == ks[i];
    }
    StampConcat(big, area0, idx0, done, Given(rest, x));
    TokensSizeConcat(done, Given(rest, x));
    assert done + Given(rest, x) + Remains(rest) == done + (Given(rest, x) + Remains(rest));
  }

  lemma WrittenIs(ks: seq<Token>, done: seq<Token>, rest: seq<Token>)
    requires done + rest == ks && !HasData(rest) && Trailing(rest) == Trailing(ks)
    ensures done == Written(ks)
  {
    WrittenTrailing(ks);
    assert Trailing(rest) == rest;
    assert |done| == |Written(ks)|;
    assert done == (done + rest)[..|done|];
  }

  function PadSize(ks: seq<Token>): int {
    if ks == [] then 0 else (if ks[0].PadToken? then ks[0].n else 0) + PadSize(ks[1..])
  }

  /** What is left unwritten at the end is padding alone just if no counter is among it. */
  lemma {:induction false} UnwrittenIsPadding(ks: seq<Token>)
    requires TokensOk(ks) && !HasData(ks)
    ensures TokensSize(ks) >= PadSize(ks)
    ensures TokensSize(ks) == PadSize(ks) <==> forall i :: 0 <= i < |ks| ==> ks[i].PadToken?
  {
    if ks != [] {
      assert TokenOk(ks[0]) && !IsData(ks[0]);
      UnwrittenIsPadding(ks[1..]);
      assert forall i :: 0 <= i < |ks[1..]| ==> ks[1..][i] == ks[i + 1];
      assert forall i :: 0 < i < |ks| ==> ks[i] == ks[1..][i - 1];
    }
  }

  lemma {:induction false} HoldsPads(big: bool, area: seq<Byte>, at: int, a: seq<Token>, b: seq<Token>)
    requires Holds(big, area, at, a) && TokensOk(a) && TokensOk(b) && forall i :: 0 <= i < |b| ==> b[i].PadToken?
    requires at + TokensSize(a) + TokensSize(b) <= |area|
    ensures Holds(big, area, at, a + b)
    decreases |a|, |b|
  {
    if a != [] {
      assert (a + b)[0] == a[0] && (a + b)[1..] == a[1..] + b;
      HoldsPads(big, area, at + TokenSize(a[0]), a[1..], b);
    } else {
      assert a + b == b;
      if b != [] {
        assert TokenOk(b[0]);
        SizeNat(b[1..]);
        HoldsPads(big, area, at + TokenSize(b[0]), a, b[1..]);
        assert [] + b[1..] == b[1..];
      }
    }
  }

  class FrameMgr {
    const t: Template
    const big: bool
    var fi: Inst
    const area: array<Byte>
    var idx: nat

    /** FrameMgrInit and FrameMgrSetBuffer: byte_swap and the host's order make `big`. */
    constructor (t: Template, big: bool, area: array<Byte>)
      ensures this.t == t && this.big == big && this.area == area && fi == FreshInst() && idx == 0
    {
      this.t, this.big, this.area, this.fi, this.idx := t, big, area, FreshInst(), 0;
    }

    method SetSize(num: int) returns (ok: bool)
      modifies this`fi
      ensures (ok, fi) == InstSetSize(t, old(fi), num, 0)
    {
      var r := InstSetSize(t, fi, num, 0);
      ok, fi := r.0, r.1;
    }

    method SetIterCount(count: int) returns (ok: bool)
      modifies this`fi
      ensures (ok, fi) == InstSetCount(t, old(fi), count, 0)
    {
      var r := InstSetCount(t, fi, count, 0);
      ok, fi := r.0, r.1;
    }

    method GetTotalSize() returns (n: int)
      ensures n == FrameTotal(t, fi)
    {
      n := FrameTotal(t, fi);
    }

    /** Copy bytes to the buffer at the cursor. */
    method Store(b: seq<Byte>)
      requires idx + |b| <= area.Length
      modifies this`idx, area
      ensures area[..] == Write(old(area[..]), old(idx), b) && idx == old(idx) + |b|
    {
      var i := 0;
      while i < |b|
        invariant 0 <= i <= |b|
        invariant area[..] == old(area[..idx]) + b[..i] + old(area[idx + i..])
        invariant idx == old(idx)
      {
        area[idx + i] := b[i];
        i := i + 1;
      }
      idx := idx + |b|;
    }

    /** A document's sizes and counts are set, and what is left to write fits the buffer. */
    ghost predicate Writes(d: seq<Field>)
      reads this`fi, this`idx
    {
      Filled(t, fi, d) && Placed(t, fi) && Fits(d)
    }

    ghost predicate Fits(d: seq<Field>)
      reads this`fi, this`idx
    {
      CodecOk(t) && TokensOk(Rest(t, fi, d)) && idx + TokensSize(Rest(t, fi, d)) <= area.Length
    }

    /** Write a number or a byte string. */
    method PutDatum(info: Info, x: Datum, ghost rest: seq<Token>) returns (st: Status)
      requires rest != [] && IsData(rest[0]) && Suits(rest, x) && Reports(info, rest[0]) && TokenOk(rest[0])
      requires idx + TokenSize(rest[0]) <= area.Length
      modifies this`idx, area
      ensures Puts(big, rest, x, old(area[..]), old(idx), st, area[..], idx)
      ensures idx == old(idx) + TokenSize(rest[0])
    {
      ghost var idx0, area0 := idx, area[..];
      match info
      case BitsInfo(w) =>
        Store(NumBytes(big, w, x.num));
        st := Success;
        PutsDatum(big, rest, x, area0, idx0, Fill(rest[0], x), area[..], idx);
      case BarrayInfo(num) =>
        if num == NO_VALUE {
          return InvalidCall;
        }
        if num > 0 {
          Store(x.bytes[..num]);
        }
        st := Success;
        PutsDatum(big, rest, x, area0, idx0, Fill(rest[0], x), area[..], idx);
    }

    /** _FrameMgrPutToken: counters and paddings that come before the datum are dealt with
        on the way.  A counter's call reports success whatever becomes of the datum. */
    method PutToken(x: Datum, ghost d: seq<Field>) returns (st: Status)
      requires Writes(d) && Suits(Rest(t, fi, d), x)
      modifies this, area
      ensures Puts(big, old(Rest(t, fi, d)), x, old(area[..]), old(idx), st, area[..], idx)
      ensures Filled(t, fi, d) && Rest(t, fi, d) == Remains(old(Rest(t, fi, d))) && Fits(d)
      ensures HasData(old(Rest(t, fi, d))) ==> Placed(t, fi)
      decreases |Rest(t, fi, d)|
    {
      ghost var rest, idx0, area0 := Rest(t, fi, d), idx, area[..];
      var (info, fi1) := InstNext(t, fi);
      StepIs(t, fi, d, info, fi1, rest);
      fi := fi1;
      match info {
        case CounterInfo(w, _, length) =>
          if length == NO_VALUE {
            return CannotCalc;
          }
          Store(NumBytes(big, w, length));
          ghost var area1, idx1 := area[..], idx;
          var st1 := PutToken(x, d);
          st := Success;
          PutsAfter(big, rest, x, area0, idx0, area1, idx1, st1, area[..], idx);
        case PadInfo(n) =>
          idx := idx + n;
          ghost var area1, idx1 := area[..], idx;
          st := PutToken(x, d);
          PutsAfter(big, rest, x, area0, idx0, area1, idx1, st, area[..], idx);
        case End =>
          st := Eod;
        case Stuck =>
          st := Bug;
        case _ =>
          st := PutDatum(info, x, rest);
      }
    }

    method SetSizesOf(sizes: seq<nat>)
      modifies this`fi
      ensures fi == SetSizes(t, old(fi), sizes)
    {
      if sizes != [] {
        var _ := SetSize(sizes[0]);
        SetSizesOf(sizes[1..]);
      }
    }

    /** The writer's first pass: for each list its count, for each byte string its size. */
    method SetUp(d: seq<Field>, i: int)
      modifies this`fi
      ensures fi == Setup(t, old(fi), d, i)
      decreases |t| - i
    {
      if 0 <= i < |t| && !t[i].Eol? && i < Increment(t, i) {
        if t[i].Iter? {
          var _ := SetIterCount(|ElemsOf(FieldAt(d, i))|);
        }
        SetSizesOf(ItemSizes(t, d, i));
        SetUp(d, Increment(t, i));
      }
    }

    /** The writer's second pass: the data in order. */
    method PutAll(xs: seq<Datum>, ghost d: seq<Field>)
      requires Writes(d) && xs == DataOf(Rest(t, fi, d))
      modifies this, area
      ensures var ks := old(Rest(t, fi, d));
        && area[..] == Stamp(big, old(area[..]), old(idx), Written(ks))
        && idx == old(idx) + TokensSize(Written(ks)) && Filled(t, fi, d)
    {
      ghost var ks, area0, idx0 := Rest(t, fi, d), area[..], idx;
      ghost var done: seq<Token> := [];
      var i := 0;
      while i < |xs|
        invariant 0 <= i <= |xs| && xs[i..] == DataOf(Rest(t, fi, d))
        invariant done + Rest(t, fi, d) == ks && Trailing(Rest(t, fi, d)) == Trailing(ks)
        invariant TokensOk(ks) && area[..] == Stamp(big, area0, idx0, done) && idx == idx0 + TokensSize(done)
        invariant Filled(t, fi, d) && Fits(d) && (i < |xs| ==> Placed(t, fi))
      {
        ghost var rest, area1, idx1 := Rest(t, fi, d), area[..], idx;
        assert xs[i] == xs[i..][0] && xs[i + 1..] == xs[i..][1..];
        DataFree(rest);
        GivenNext(rest, xs[i]);
        RemainsNext(rest);
        var st := PutToken(xs[i], d);
        PutAllStep(big, area0, idx0, ks, done, rest, xs[i], area1, idx1, st, area[..], idx);
        done := done + Given(rest, xs[i]);
        i := i + 1;
      }
      DataFree(Rest(t, fi, d));
      WrittenIs(ks, done, Rest(t, fi, d));
    }

    /** A reply as the server writes it: sizes and counts, then the data.  The length
        computed in between is the bytes written and the tokens no call gets to. */
    method WriteFrame(d: seq<Field>) returns (total: int)
      requires TwoLevel(t) && fi == FreshInst() && idx == 0 && SizeFrom(t, d, 0) <= area.Length
      modifies this, area
      ensures var ks := TokensFrom(t, d, 0);
        && total == SizeFrom(t, d, 0) == idx + TokensSize(Trailing(ks))
        && area[..] == Stamp(big, old(area[..]), 0, Written(ks)) && idx == TokensSize(Written(ks))
    {
      ghost var ks := TokensFrom(t, d, 0);
      SetUp(d, 0);
      SetupFills(t, d, fi);
      FrameTotalIs(t, fi, d);
      RewoundPlaced(t, fi);
      RestRewound(t, fi, d);
      FrameTokensOk(t, d, 0);
      TokensFromSize(t, d, 0);
      total := GetTotalSize();
      PutAll(DataOf(TokensFrom(t, d, 0)), d);
      WrittenTrailing(ks);
      TokensSizeConcat(Written(ks), Trailing(ks));
    }
  }

  lemma PartsOk(a: seq<Token>, b: seq<Token>, ks: seq<Token>)
    requires ks == a + b && TokensOk(ks)
    ensures TokensOk(a) && TokensOk(b)
  {
    assert forall i :: 0 <= i < |a| ==> a[i] == ks[i];
    assert forall i :: 0 <= i < |b| ==> b[i] == ks[|a| + i];
  }

  /** The tokens do not end in a counter that no datum follows. */
  predicate EndsInData(ks: seq<Token>) {
    forall i :: 0 <= i < |Trailing(ks)| ==> Trailing(ks)[i].PadToken?
  }

  /** The computed length is the bytes written and trailing padding exactly when the frame
      ends in data; then the buffer holds all of its tokens. */
  lemma {:induction false} WholeFrame(t: Template, d: seq<Field>, big: bool, area: seq<Byte>, area': seq<Byte>)
    requires CodecOk(t) && SizeFrom(t, d, 0) <= |area|
    requires area' == Stamp(big, area, 0, Written(TokensFrom(t, d, 0)))
    ensures var ks := TokensFrom(t, d, 0);
      && (SizeFrom(t, d, 0) == TokensSize(Written(ks)) + PadSize(Trailing(ks)) <==> EndsInData(ks))
      && (EndsInData(ks) ==> Holds(big, area', 0, ks))
  {
    var ks := TokensFrom(t, d, 0);
    FrameTokensOk(t, d, 0);
    TokensFromSize(t, d, 0);
    WrittenTrailing(ks);
    TokensSizeConcat(Written(ks), Trailing(ks));
    PartsOk(Written(ks), Trailing(ks), ks);
    UnwrittenIsPadding(Trailing(ks));
    SizeNat(Trailing(ks));
    StampHolds(big, area, 0, Written(ks));
    if EndsInData(ks) {
      HoldsPads(big, area', 0, Written(ks), Trailing(ks));
    }
  }
}
