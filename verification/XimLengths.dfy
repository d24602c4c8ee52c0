/** The length in a message's header: a 16-bit number of 4-byte units (src/lib/IMdkit/i18nUtil.c, _Xi18nSendMessage). */
module XimLengths {
  import opened FrameTemplate
  import opened FrameTokens
  import opened FrameEncode
  import opened FrameSetup
  import opened FrameRequests
  import opened FrameElement
  import opened FrameRead
  import opened XimFrames
  import opened XimCodec

  const MAX_STRING := 65535

  /** What the header says of a message's length: the number of units, as far as it fits. */
  function HeaderLength(t: Template, d: seq<Field>): nat {
    SizeFrom(t, d, 0) / 4 % 65536
  }

  /** Every byte string is as long as a 16-bit number says, and so is every list. */
  ghost predicate Modest(t: Template, d: seq<Field>) {
    forall i :: Boundary(t, i) ==>
      (t[i].Barray? ==> |BytesOf(FieldAt(d, i))| <= MAX_STRING) && (t[i].Iter? ==> ElemsSize(t, i + 1, ElemsOf(FieldAt(d, i))) <= MAX_STRING)
  }

  /** The byte strings and lists of a message are at the records a and b, and there are no inner frames beside lists. */
  ghost predicate TwoParts(t: Template, a: int, b: int) {
    forall i :: Boundary(t, i) && i < |t| - 1 ==>
      && !t[i].Pointer? && ((t[i].Barray? || t[i].Iter?) ==> i == a || i == b)
      && (t[i].Bits? || t[i].Counter? ==> t[i].width <= 4) && (t[i].Padding? ==> 0 < t[i].unit <= 4)
  }

  function Part(i: int, a: int): nat {
    if i <= a then MAX_STRING else 0
  }

  lemma {:induction false} SizeBound(t: Template, d: seq<Field>, i: int, a: int, b: int)
    requires ShapeOk(t) && Boundary(t, i) && TwoParts(t, a, b) && Modest(t, d)
    ensures SizeFrom(t, d, i) <= 4 * (|t| - i) + Part(i, a) + Part(i, b)
    decreases |t| - i
  {
    if i < |t| - 1 {
      assert RecordOk(t, i);
      DecrementUndoesIncrement(t, i);
      SizeBound(t, d, Increment(t, i), a, b);
      ItemBound(t, d, i, a, b);
    } else {
      assert Increment(t, i) == -1;
    }
  }

  lemma {:induction false} ItemBound(t: Template, d: seq<Field>, i: int, a: int, b: int)
    requires ShapeOk(t) && Boundary(t, i) && i < |t| - 1 && TwoParts(t, a, b) && Modest(t, d)
    ensures ItemSize(t, d, i) <= if i == a || i == b then MAX_STRING else 4
  {
    assert RecordOk(t, i);
  }

  /** Where the byte strings and lists of a message of the server's are. */
  function Parts(t: Template): (int, int) {
    if t == PREEDIT_DRAW then (7, 11)
    else if t == STATUS_DRAW_TEXT then (5, 9)
    else if t == OPEN_REPLY then (2, 7)
    else if t == GET_IC_VALUES_REPLY || t == COMMIT_CHARS then (4, -1)
    else if t == QUERY_EXTENSION_REPLY || t == GET_IM_VALUES_REPLY then (2, -1)
    else if t == RESET_IC_REPLY then (3, -1)
    else if t == COMMIT_BOTH || t == ERROR then (6, -1)
    else (-1, -1)
  }

  /** It has no more than 15 records, and these are all its byte strings and lists. */
  ghost predicate HasParts(t: Template) {
    |t| <= 15 && TwoParts(t, Parts(t).0, Parts(t).1)
  }

  lemma Parts1()
    ensures HasParts(CONNECT_REPLY) && HasParts(DISCONNECT_REPLY) && HasParts(CLOSE_REPLY) && HasParts(CREATE_IC_REPLY)
    ensures HasParts(DESTROY_IC_REPLY) && HasParts(SET_IC_VALUES_REPLY) && HasParts(TRIGGER_NOTIFY_REPLY)
  {
  }

  lemma Parts2()
    ensures HasParts(ENCODING_NEGOTIATION_REPLY) && HasParts(SET_EVENT_MASK) && HasParts(FORWARD_EVENT) && HasParts(SYNC)
    ensures HasParts(GEOMETRY) && HasParts(STR_CONVERSION) && HasParts(PREEDIT_START)
  {
  }

  lemma Parts3()
    ensures HasParts(PREEDIT_CARET) && HasParts(PREEDIT_DONE) && HasParts(STATUS_START) && HasParts(STATUS_DRAW_BITMAP)
    ensures HasParts(STATUS_DONE)
  {
  }

  lemma Parts4()
    ensures HasParts(OPEN_REPLY) && HasParts(QUERY_EXTENSION_REPLY)
  {
  }

  lemma Parts5()
    ensures HasParts(GET_IM_VALUES_REPLY) && HasParts(GET_IC_VALUES_REPLY)
  {
  }

  lemma Parts6()
    ensures HasParts(RESET_IC_REPLY) && HasParts(COMMIT_CHARS)
  {
  }

  lemma Parts7()
    ensures HasParts(COMMIT_BOTH) && HasParts(ERROR)
  {
  }

  lemma Parts8()
    ensures HasParts(PREEDIT_DRAW) && HasParts(STATUS_DRAW_TEXT)
  {
  }

  lemma MessageParts(t: Template)
    requires t in SERVER_FRAMES && t != REGISTER_TRIGGERKEYS
    ensures HasParts(t)
  {
    Parts1();
    Parts2();
    Parts3();
    Parts4();
    Parts5();
    Parts6();
    Parts7();
    Parts8();
  }

  /** The header of a message is true if and only if the message is shorter than 262144 bytes. */
  lemma HeaderTrue(t: Template, d: seq<Field>)
    requires t in SERVER_FRAMES
    ensures 4 * HeaderLength(t, d) == SizeFrom(t, d, 0) <==> SizeFrom(t, d, 0) < 0x4_0000
  {
    ServerFramesWhole(t);
    Units(SizeFrom(t, d, 0));
  }

  lemma Units(n: nat)
    requires n % 4 == 0
    ensures 4 * (n / 4 % 65536) == n <==> n < 0x4_0000
  {
    var u := n / 4;
    assert n == 4 * u && (u % 65536 == u <==> u < 65536);
  }

  /** And so it is when its byte strings and lists are as long as 16-bit numbers say; only the list of trigger keys is counted in
      32 bits. */
  lemma HeaderHolds(t: Template, d: seq<Field>)
    requires t in SERVER_FRAMES && t != REGISTER_TRIGGERKEYS && Modest(t, d)
    ensures 4 * HeaderLength(t, d) == SizeFrom(t, d, 0)
  {
    ServerFramesCode(t);
    StartBoundary(t);
    MessageParts(t);
    SizeBound(t, d, 0, Parts(t).0, Parts(t).1);
    HeaderTrue(t, d);
  }

  // Too many trigger keys.

  lemma {:induction false} KeysSize(n: nat)
    ensures ElemsSize(REGISTER_TRIGGERKEYS, 4, seq(n, _ => Fields([]))) == 12 * n
    ensures ElemsSize(REGISTER_TRIGGERKEYS, 8, seq(n, _ => Fields([]))) == 12 * n
  {
    var es := seq(n, _ => Fields([]));
    KeySize();
    if n > 0 {
      assert es[1..] == seq(n - 1, _ => Fields([]));
      KeysSize(n - 1);
    }
  }

  lemma KeySize()
    ensures ElemSize(REGISTER_TRIGGERKEYS, 4, Fields([])) == 12 && ElemSize(REGISTER_TRIGGERKEYS, 8, Fields([])) == 12
  {
    var u := XIMTRIGGERKEY;
    assert SizeFrom(u, [], 3) == 0;
    assert SizeFrom(u, [], 2) == 4;
    assert SizeFrom(u, [], 1) == 8;
    assert SizeFrom(u, [], 0) == 12;
  }

  function Keys(n: nat): seq<Field> {
    [Num(1), Nothing, Nothing, Elems(seq(n, _ => Fields([]))), Nothing, Nothing, Nothing, Elems([Fields([])])]
  }

  lemma FirstBack(t: Template, d: seq<Field>)
    requires |t| > 1
    ensures BackSize(t, d, 1, 1) == ItemSize(t, d, 0)
  {
    assert Decrement(t, 1) == 0 && BackSize(t, d, 0, 0) == 0;
  }

  lemma KeysMessage(n: nat)
    ensures SizeFrom(REGISTER_TRIGGERKEYS, Keys(n), 0) == 12 * n + 24
  {
    var t, d := REGISTER_TRIGGERKEYS, Keys(n);
    KeysSize(n);
    KeysSize(1);
    assert seq(1, _ => Fields([])) == [Fields([])];
    assert Increment(t, 4) == 6 && Increment(t, 3) == 6 && Increment(t, 8) == 10 && Increment(t, 7) == 10;
    assert SizeFrom(t, d, 10) == 0;
    assert SizeFrom(t, d, 7) == 12;
    assert SizeFrom(t, d, 6) == 16;
    assert SizeFrom(t, d, 3) == 12 * n + 16;
    assert SizeFrom(t, d, 2) == 12 * n + 20;
    assert ItemSize(t, d, 0) == 2;
    FirstBack(t, d);
    assert ItemSize(t, d, 1) == 2;
    assert SizeFrom(t, d, 1) == 12 * n + 22;
  }

  /** With 21846 keys the message has 262176 bytes, and the header says 32. */
  lemma TooManyKeys()
    ensures Sendable(REGISTER_TRIGGERKEYS, Keys(21846))
    ensures SizeFrom(REGISTER_TRIGGERKEYS, Keys(21846), 0) == 262176 && HeaderLength(REGISTER_TRIGGERKEYS, Keys(21846)) == 8
  {
    KeysMessage(21846);
    KeysSize(21846);
    KeysSize(1);
    assert seq(1, _ => Fields([])) == [Fields([])];
  }
}
