/** A message of the server in full, for both kinds of client (src/lib/IMdkit/i18nIMProto.c): the reply to a query of
    extensions, with one extension. */
module WireExample {

  import opened FrameTemplate
  import opened FrameTokens
  import opened FrameElement
  import opened FrameEncode
  import opened XimFrames

  const NAME: seq<Byte> := [65, 66, 67]
  const EXTENSION: seq<Field> := [Num(304), Num(2), Num(3), Bytes(NAME)]
  const REPLY: seq<Field> := [Num(7), Nothing, Elems([Fields(EXTENSION)])]
  const REPLY_BIG: seq<Byte> := [0, 7, 0, 12, 1, 48, 0, 2, 0, 3, 65, 66, 67, 0, 0, 0]
  const REPLY_LITTLE: seq<Byte> := [7, 0, 12, 0, 48, 1, 2, 0, 3, 0, 65, 66, 67, 0, 0, 0]

  lemma ExtensionPad()
    ensures TokenAt(EXT, EXTENSION, 4) == PadToken(3)
  {
    assert Decrement(EXT, 4) == 3 && Decrement(EXT, 3) == 2;
    assert BackSize(EXT, EXTENSION, 4, 2) == 5;
  }

  lemma ExtensionTokens()
    ensures TokensFrom(EXT, EXTENSION, 0) == [BitsToken(2, 304), BitsToken(2, 2), BitsToken(2, 3), BytesToken(NAME), PadToken(3)]
  {
    assert TokensFrom(EXT, EXTENSION, 5) == [];
    ExtensionPad();
    SimpleTokens(EXT, EXTENSION, 4);
    SimpleTokens(EXT, EXTENSION, 3);
    SimpleTokens(EXT, EXTENSION, 2);
    SimpleTokens(EXT, EXTENSION, 1);
    SimpleTokens(EXT, EXTENSION, 0);
  }

  const REPLY_TOKENS: seq<Token> := [
    BitsToken(2, 7), CountToken(2, 12), BitsToken(2, 304), BitsToken(2, 2), BitsToken(2, 3), BytesToken(NAME), PadToken(3)]

  lemma ReplyTokens()
    ensures TokensFrom(QUERY_EXTENSION_REPLY, REPLY, 0) == REPLY_TOKENS
  {
    var t, d, inner := QUERY_EXTENSION_REPLY, REPLY, TokensFrom(EXT, EXTENSION, 0);
    ExtensionTokens();
    ExtensionList();
    assert TokenAt(t, d, 1) == CountToken(2, 12) && TokenAt(t, d, 0) == BitsToken(2, 7);
    SimpleTokens(t, d, 1);
    SimpleTokens(t, d, 0);
    assert TokensFrom(t, d, 0) == [BitsToken(2, 7)] + ([CountToken(2, 12)] + inner);
  }

  lemma ExtensionList()
    ensures TokensFrom(QUERY_EXTENSION_REPLY, REPLY, 2) == TokensFrom(EXT, EXTENSION, 0)
    ensures ElemsSize(QUERY_EXTENSION_REPLY, 3, [Fields(EXTENSION)]) == 12
  {
    var t, d, inner := QUERY_EXTENSION_REPLY, REPLY, TokensFrom(EXT, EXTENSION, 0);
    ExtensionSize();
    OneElement(t, 3, Fields(EXTENSION), inner);
    assert [Fields(EXTENSION)][1..] == [];
    assert Increment(t, 2) == 5 && TokensFrom(t, d, 5) == [];
    assert ItemTokens(t, d, 2) == inner;
  }

  lemma ExtensionSize()
    ensures SizeFrom(EXT, EXTENSION, 0) == 12
  {
    ExtensionTokens();
    TokensFromSize(EXT, EXTENSION, 0);
    assert |NAME| == 3;
    FiveSizes(BitsToken(2, 304), BitsToken(2, 2), BitsToken(2, 3), BytesToken(NAME), PadToken(3));
  }

  lemma FiveSizes(a: Token, b: Token, c: Token, d: Token, e: Token)
    ensures TokensSize([a, b, c, d, e]) == TokenSize(a) + TokenSize(b) + TokenSize(c) + TokenSize(d) + TokenSize(e)
  {
    SizeOf(a, [b, c, d, e]);
    SizeOf(b, [c, d, e]);
    SizeOf(c, [d, e]);
    SizeOf(d, [e]);
    SizeOf(e, []);
    assert [d] + [e] == [d, e] && [c] + [d, e] == [c, d, e] && [b] + [c, d, e] == [b, c, d, e];
    assert [a] + [b, c, d, e] == [a, b, c, d, e] && [e] + [] == [e];
  }

  lemma SizeOf(k: Token, ks: seq<Token>)
    ensures TokensSize([k] + ks) == TokenSize(k) + TokensSize(ks)
  {
    assert ([k] + ks)[1..] == ks;
  }

  lemma OneElement(t: Template, i: int, f: Field, inner: seq<Token>)
    requires ElemTokens(t, i, f) == inner
    ensures ElemsTokens(t, i, [f]) == inner
  {
    assert [f][1..] == [] && ElemsTokens(t, i, []) == [];
  }

  /** It is these sixteen bytes for a big-endian client, and these for the other kind. */
  lemma ReplyBytes()
    ensures SizeFrom(QUERY_EXTENSION_REPLY, REPLY, 0) == 16
    ensures Holds(true, REPLY_BIG, 0, TokensFrom(QUERY_EXTENSION_REPLY, REPLY, 0))
    ensures Holds(false, REPLY_LITTLE, 0, TokensFrom(QUERY_EXTENSION_REPLY, REPLY, 0))
  {
    var ks := REPLY_TOKENS;
    ReplyTokens();
    TokensFromSize(QUERY_EXTENSION_REPLY, REPLY, 0);
    Whole(true, REPLY_BIG, ks);
    Whole(false, REPLY_LITTLE, ks);
  }

  lemma Whole(big: bool, area: seq<Byte>, ks: seq<Token>)
    requires ks == REPLY_TOKENS && area == if big then REPLY_BIG else REPLY_LITTLE
    ensures Holds(big, area, 0, ks) && TokensSize(ks) == 16
  {
    Last(big, area);
    FrontNumbers(big, area);
    Front(big, area, ks);
  }

  lemma Last(big: bool, area: seq<Byte>)
    requires area == if big then REPLY_BIG else REPLY_LITTLE
    ensures Holds(big, area, 8, REPLY_TOKENS[4..]) && TokensSize(REPLY_TOKENS[4..]) == 8
  {
    assert REPLY_TOKENS[5..][1..] == REPLY_TOKENS[6..] && REPLY_TOKENS[6..][1..] == [];
    assert Holds(big, area, 13, REPLY_TOKENS[6..]);
    assert |area| == 16 && area[10] == NAME[0] && area[11] == NAME[1] && area[12] == NAME[2] && |NAME| == 3;
    assert area[10..13] == NAME;
    assert Holds(big, area, 10, REPLY_TOKENS[5..]);
    assert TokensSize(REPLY_TOKENS[6..]) == 3 && TokensSize(REPLY_TOKENS[5..]) == 6;
    HeldNumber(big, area, 8, REPLY_TOKENS, 4, 0, 3);
  }

  /** The token is this number of two bytes, and they are in the buffer. */
  predicate Here(big: bool, area: seq<Byte>, at: nat, k: Token, hi: Byte, lo: Byte) {
    && at + 2 <= |area| && area[at] == (if big then hi else lo) && area[at + 1] == (if big then lo else hi)
    && (k.BitsToken? || k.CountToken?) && k.w == 2 && k.v == 256 * (hi as int) + lo as int
  }

  lemma FrontNumbers(big: bool, area: seq<Byte>)
    requires area == if big then REPLY_BIG else REPLY_LITTLE
    ensures Here(big, area, 0, REPLY_TOKENS[0], 0, 7) && Here(big, area, 2, REPLY_TOKENS[1], 0, 12)
    ensures Here(big, area, 4, REPLY_TOKENS[2], 1, 48) && Here(big, area, 6, REPLY_TOKENS[3], 0, 2)
  {
  }

  lemma Front(big: bool, area: seq<Byte>, ks: seq<Token>)
    requires |ks| > 4 && Here(big, area, 0, ks[0], 0, 7) && Here(big, area, 2, ks[1], 0, 12)
    requires Here(big, area, 4, ks[2], 1, 48) && Here(big, area, 6, ks[3], 0, 2)
    requires Holds(big, area, 8, ks[4..]) && TokensSize(ks[4..]) == 8
    ensures Holds(big, area, 0, ks) && TokensSize(ks) == 16
  {
    HeldNumber(big, area, 6, ks, 3, 0, 2);
    HeldNumber(big, area, 4, ks, 2, 1, 48);
    HeldNumber(big, area, 2, ks, 1, 0, 12);
    HeldNumber(big, area, 0, ks, 0, 0, 7);
    assert ks[0..] == ks;
  }

  /** A number of two bytes in front of tokens that are there. */
  lemma HeldNumber(big: bool, area: seq<Byte>, at: nat, ks: seq<Token>, i: nat, hi: Byte, lo: Byte)
    requires i < |ks| && Here(big, area, at, ks[i], hi, lo) && Holds(big, area, at + 2, ks[i + 1..])
    ensures Holds(big, area, at, ks[i..]) && TokensSize(ks[i..]) == 2 + TokensSize(ks[i + 1..])
  {
    TwoBytes(big, ks[i].v, hi, lo);
    assert area[at..at + 2] == [area[at], area[at + 1]];
    assert ks[i..][1..] == ks[i + 1..];
  }

  lemma TwoBytes(big: bool, v: nat, hi: Byte, lo: Byte)
    requires v == 256 * (hi as int) + lo as int
    ensures NumBytes(big, 2, v) == if big then [hi, lo] else [lo, hi]
  {
  }
}
