/** The bytes on the wire, place by place (src/lib/IMdkit/FrameMgr.c, Swap16 and Swap32): a number has its most significant byte
    first for a big-endian client and last for the other kind. */
module WireBytes {

  import opened FrameTemplate
  import opened FrameTokens
  import opened FrameEncode
  import opened FrameDecode
  import opened FrameRoundTrip
  import opened FrameWire

  function Power256(n: nat): nat {
    if n == 0 then 1 else 256 * Power256(n - 1)
  }

  /** The number a row of bytes stands for, the first the most significant. */
  function Value(bytes: seq<Byte>): nat {
    if bytes == [] then 0 else 256 * Value(bytes[..|bytes| - 1]) + bytes[|bytes| - 1]
  }

  function Backwards(bytes: seq<Byte>): (r: seq<Byte>)
    ensures |r| == |bytes| && forall i :: 0 <= i < |bytes| ==> r[i] == bytes[|bytes| - 1 - i]
  {
    seq(|bytes|, i requires 0 <= i < |bytes| => bytes[|bytes| - 1 - i])
  }

  /** How many lower bytes byte i of w stands above. */
  function Lower(big: bool, w: int, i: nat): nat
    requires i < w
  {
    if big then w - 1 - i else i
  }

  predicate IsWidth(w: int) {
    w == 1 || w == 2 || w == 4
  }

  lemma Quarters(v: int)
    ensures v / 256 / 256 == v / 65536 && v / 256 / 256 / 256 == v / 16777216
  {
  }

  lemma Powers()
    ensures Power256(0) == 1 && Power256(1) == 256 && Power256(2) == 65536 && Power256(3) == 16777216
  {
    assert Power256(1) == 256 * Power256(0);
    assert Power256(2) == 256 * Power256(1);
    assert Power256(3) == 256 * Power256(2);
  }

  lemma Above(v: int, n: nat)
    requires n < 4
    ensures Power256(n) > 0
    ensures v / Power256(n) == if n == 0 then v else if n == 1 then v / 256 else if n == 2 then v / 256 / 256 else v / 256 / 256 / 256
  {
    Powers();
    Quarters(v);
  }

  /** Byte i of a number. */
  lemma ByteAt(big: bool, w: int, v: int, i: nat)
    requires IsWidth(w) && i < w
    ensures |NumBytes(big, w, v)| == w && Power256(Lower(big, w, i)) > 0
    ensures NumBytes(big, w, v)[i] == v / Power256(Lower(big, w, i)) % 256
  {
    Above(v, Lower(big, w, i));
  }

  /** The number that bytes are read as. */
  lemma NumIsValue(big: bool, bytes: seq<Byte>)
    requires IsWidth(|bytes|)
    ensures BytesNum(big, bytes) == Value(if big then bytes else Backwards(bytes))
  {
    var row := if big then bytes else Backwards(bytes);
    if |row| == 1 {
      ValueOfOne(row);
    } else if |row| == 2 {
      ValueOfTwo(row);
    } else {
      ValueOfFour(row);
    }
  }

  lemma ValueOfOne(b: seq<Byte>)
    requires |b| == 1
    ensures Value(b) == b[0]
  {
    assert b[..0] == [];
  }

  lemma ValueOfTwo(b: seq<Byte>)
    requires |b| == 2
    ensures Value(b) == 256 * (b[0] as int) + b[1] as int
  {
    ValueOfOne(b[..1]);
  }

  lemma ValueOfFour(b: seq<Byte>)
    requires |b| == 4
    ensures Value(b) == 16777216 * (b[0] as int) + 65536 * (b[1] as int) + 256 * (b[2] as int) + b[3] as int
  {
    ValueOfTwo(b[..2]);
    assert b[..3][..2] == b[..2];
  }

  // In the buffer

  predicate IsNumber(k: Token) {
    k.BitsToken? || k.CountToken?
  }

  lemma {:induction false} HeldToken(big: bool, area: seq<Byte>, at: int, ks: seq<Token>, j: nat)
    requires Holds(big, area, at, ks) && TokensOk(ks) && j < |ks|
    ensures TokensSize(ks[..j]) >= 0 && Holds(big, area, at + TokensSize(ks[..j]), ks[j..]) && TokenOk(ks[j])
  {
    assert ks == ks[..j] + ks[j..];
    assert forall i :: 0 <= i < j ==> ks[..j][i] == ks[i];
    SizeNat(ks[..j]);
    HoldsParts(big, area, at, ks[..j], ks[j..]);
  }

  /** Each byte of each number in a buffer that holds the tokens of a message. */
  lemma HeldByte(big: bool, area: seq<Byte>, at: int, ks: seq<Token>, j: nat, i: nat)
    requires Holds(big, area, at, ks) && TokensOk(ks) && j < |ks| && IsNumber(ks[j]) && i < ks[j].w
    ensures var p := at + TokensSize(ks[..j]);
      0 <= p && p + ks[j].w <= |area| && IsWidth(ks[j].w) && Power256(Lower(big, ks[j].w, i)) > 0
      && area[p + i] == ks[j].v / Power256(Lower(big, ks[j].w, i)) % 256
  {
    HeldToken(big, area, at, ks, j);
    var p, b := at + TokensSize(ks[..j]), NumBytes(big, ks[j].w, ks[j].v);
    ByteAt(big, ks[j].w, ks[j].v, i);
    assert ks[j..][0] == ks[j];
    assert area[p..p + |b|][i] == b[i];
  }

  /** And each byte of each string. */
  lemma HeldString(big: bool, area: seq<Byte>, at: int, ks: seq<Token>, j: nat)
    requires Holds(big, area, at, ks) && TokensOk(ks) && j < |ks| && ks[j].BytesToken?
    ensures var p := at + TokensSize(ks[..j]);
      0 <= p && p + |ks[j].b| <= |area| && area[p..p + |ks[j].b|] == ks[j].b
  {
    HeldToken(big, area, at, ks, j);
    assert ks[j..][0] == ks[j];
  }

  /** The place among tokens of the datum a call of PutToken writes. */
  function DatumAt(rest: seq<Token>): (j: nat)
    requires HasData(rest)
    ensures j < |rest| && IsData(rest[j])
  {
    if IsData(rest[0]) then 0 else 1 + DatumAt(rest[1..])
  }

  lemma {:induction false} GivenDatum(rest: seq<Token>, x: Datum)
    requires HasData(rest) && Suits(rest, x)
    ensures var ks, j := Given(rest, x), DatumAt(rest);
      && |ks| == j + 1 && (rest[j].BitsToken? ==> ks[j] == BitsToken(rest[j].w, x.num))
    ensures TokensOk(rest) ==> TokensOk(Given(rest, x))
  {
    if !IsData(rest[0]) {
      GivenDatum(rest[1..], x);
      assert TokensOk(rest) ==> TokenOk(rest[0]);
    } else {
      assert TokensOk(rest) ==> TokenOk(rest[0]);
    }
  }

  /** After a call of PutToken with a number for a field of w bytes the number stands in front of the new end, byte by byte. */
  lemma PutNumber(big: bool, rest: seq<Token>, x: Datum, area: seq<Byte>, idx: int, st: Status, area': seq<Byte>, idx': int, i: nat)
    requires Suits(rest, x) && Puts(big, rest, x, area, idx, st, area', idx') && HasData(rest) && TokensOk(rest)
    requires 0 <= idx && idx + TokensSize(Given(rest, x)) <= |area| && rest[DatumAt(rest)].BitsToken? && i < rest[DatumAt(rest)].w
    ensures var w := rest[DatumAt(rest)].w;
      && 0 <= idx' - w && idx' <= |area'| && Power256(Lower(big, w, i)) > 0
      && area'[idx' - w + i] == x.num / Power256(Lower(big, w, i)) % 256
  {
    var ks, j := Given(rest, x), DatumAt(rest);
    GivenDatum(rest, x);
    StampHolds(big, area, idx, ks);
    HeldByte(big, area', idx, ks, j, i);
    assert ks == ks[..j] + [ks[j]] && [ks[j]][1..] == [];
    TokensSizeConcat(ks[..j], [ks[j]]);
  }

  /** How far a call of GetToken skips. */
  function Skipped(rest: seq<Token>): int
    requires NonPads(rest)
  {
    if rest[0].PadToken? then TokenSize(rest[0]) + Skipped(rest[1..]) else 0
  }

  /** A number that GetToken gets is the one its bytes stand for in the client's order. */
  lemma {:induction false} GotNumber(big: bool, area: seq<Byte>, idx: int, rest: seq<Token>)
    requires Holds(big, area, idx, rest) && TokensOk(rest) && NonPads(rest) && NextToken(rest).BitsToken?
    ensures var p, w := idx + Skipped(rest), NextToken(rest).w;
      && 0 <= p && IsWidth(w) && p + w <= |area|
      && Seen(NextToken(rest)).num == Value(if big then area[p..p + w] else Backwards(area[p..p + w]))
    decreases |rest|
  {
    assert TokenOk(rest[0]);
    if rest[0].BitsToken? {
      ByteAt(big, rest[0].w, rest[0].v, 0);
    }
    if rest[0].PadToken? {
      GotNumber(big, area, idx + TokenSize(rest[0]), rest[1..]);
    } else {
      GotOne(big, area[idx..idx + rest[0].w], rest[0].w, rest[0].v);
    }
  }

  lemma GotOne(big: bool, bytes: seq<Byte>, w: int, v: int)
    requires IsWidth(w) && bytes == NumBytes(big, w, v)
    ensures |bytes| == w && v % Limit(w) == Value(if big then bytes else Backwards(bytes))
  {
    NumRoundTrip(big, w, v);
    NumIsValue(big, bytes);
  }

  /** Each number in the buffer that WriteFrame leaves, byte by byte. */
  lemma WrittenByte(t: Template, d: seq<Field>, big: bool, area: seq<Byte>, area': seq<Byte>, ks: seq<Token>, j: nat, i: nat)
    requires CodecOk(t) && SizeFrom(t, d, 0) <= |area| && ks == Written(TokensFrom(t, d, 0)) && area' == Stamp(big, area, 0, ks)
    requires j < |ks| && IsNumber(ks[j]) && i < ks[j].w
    ensures var p := TokensSize(ks[..j]);
      && 0 <= p && p + ks[j].w <= |area'| && IsWidth(ks[j].w) && Power256(Lower(big, ks[j].w, i)) > 0
      && area'[p + i] == ks[j].v / Power256(Lower(big, ks[j].w, i)) % 256
  {
    var all := TokensFrom(t, d, 0);
    WrittenTrailing(all);
    FrameTokensOk(t, d, 0);
    PartsOk(ks, Trailing(all), all);
    SizeNat(Trailing(all));
    TokensSizeConcat(ks, Trailing(all));
    TokensFromSize(t, d, 0);
    StampHolds(big, area, 0, ks);
    HeldByte(big, area', 0, ks, j, i);
  }
}
