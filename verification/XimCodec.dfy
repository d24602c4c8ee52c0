/** The protocol's frames are in the scope of the codec's theorems. */
module XimCodec {
  import opened FrameTemplate
  import opened FrameCursor
  import opened FrameTokens
  import opened FrameEncode
  import opened FrameRequests
  import opened FrameElement
  import opened FrameRead
  import opened FrameLengths
  import opened FrameRoundTrip
  import opened FrameTail
  import opened FrameWire
  import opened XimFrames

  /** WriteAndRead applies: a writer can set the frame up, and a reader find its way in it. */
  predicate Codes(t: Template) {
    TwoLevel(t) && Readable(t)
  }

  predicate Plain(t: Template) {
    Flat(t) && Codes(t)
  }

  lemma FlatCodes(t: Template)
    requires ShapeOk(t)
    requires forall i :: 0 <= i < |t| - 1 ==> RecordCodes(t, i) && ReadableRecord(t, i) && (t[i].Bits? || t[i].Barray? || t[i].Padding?)
    ensures Plain(t)
  {
  }

  lemma InnerFrames()
    ensures ElementOk(XIMATTR) && ElementOk(XICATTR) && ElementOk(XIMATTRIBUTE) && ElementOk(XICATTRIBUTE)
    ensures ElementOk(XIMTRIGGERKEY) && ElementOk(ENCODINGINFO) && ElementOk(STR) && ElementOk(EXT)
  {
    FlatCodes(XIMATTR);
    FlatCodes(XICATTR);
    FlatCodes(XIMATTRIBUTE);
    FlatCodes(XICATTRIBUTE);
    FlatCodes(XIMTRIGGERKEY);
    FlatCodes(ENCODINGINFO);
    FlatCodes(STR);
    FlatCodes(EXT);
  }

  lemma PlainFrames1()
    ensures Plain(CONNECT_REPLY) && Plain(DISCONNECT_REPLY) && Plain(CLOSE_REPLY) && Plain(CREATE_IC_REPLY)
    ensures Plain(DESTROY_IC_REPLY) && Plain(SET_IC_VALUES_REPLY) && Plain(RESET_IC_REPLY) && Plain(TRIGGER_NOTIFY_REPLY)
  {
    FlatCodes(CONNECT_REPLY);
    FlatCodes(DISCONNECT_REPLY);
    FlatCodes(CLOSE_REPLY);
    FlatCodes(CREATE_IC_REPLY);
    FlatCodes(DESTROY_IC_REPLY);
    FlatCodes(SET_IC_VALUES_REPLY);
    FlatCodes(RESET_IC_REPLY);
    FlatCodes(TRIGGER_NOTIFY_REPLY);
  }

  lemma PlainFrames2()
    ensures Plain(ENCODING_NEGOTIATION_REPLY) && Plain(SET_EVENT_MASK) && Plain(FORWARD_EVENT) && Plain(SYNC)
    ensures Plain(COMMIT_CHARS) && Plain(COMMIT_BOTH) && Plain(ERROR) && Plain(GEOMETRY)
  {
    FlatCodes(ENCODING_NEGOTIATION_REPLY);
    FlatCodes(SET_EVENT_MASK);
    FlatCodes(FORWARD_EVENT);
    FlatCodes(SYNC);
    FlatCodes(COMMIT_CHARS);
    FlatCodes(COMMIT_BOTH);
    FlatCodes(ERROR);
    FlatCodes(GEOMETRY);
  }

  lemma PlainFrames3()
    ensures Plain(STR_CONVERSION) && Plain(PREEDIT_START) && Plain(PREEDIT_CARET) && Plain(PREEDIT_DONE)
    ensures Plain(STATUS_START) && Plain(STATUS_DRAW_BITMAP) && Plain(STATUS_DONE) && Plain(CLOSE)
  {
    FlatCodes(STR_CONVERSION);
    FlatCodes(PREEDIT_START);
    FlatCodes(PREEDIT_CARET);
    FlatCodes(PREEDIT_DONE);
    FlatCodes(STATUS_START);
    FlatCodes(STATUS_DRAW_BITMAP);
    FlatCodes(STATUS_DONE);
    FlatCodes(CLOSE);
  }

  lemma PlainFrames4()
    ensures Plain(DESTROY_IC) && Plain(SET_IC_FOCUS) && Plain(UNSET_IC_FOCUS) && Plain(TRIGGER_NOTIFY)
    ensures Plain(SYNC_REPLY) && Plain(RESET_IC) && Plain(PREEDIT_START_REPLY) && Plain(PREEDIT_CARET_REPLY)
  {
    FlatCodes(DESTROY_IC);
    FlatCodes(SET_IC_FOCUS);
    FlatCodes(UNSET_IC_FOCUS);
    FlatCodes(TRIGGER_NOTIFY);
    FlatCodes(SYNC_REPLY);
    FlatCodes(RESET_IC);
    FlatCodes(PREEDIT_START_REPLY);
    FlatCodes(PREEDIT_CARET_REPLY);
  }

  lemma PlainFrames5()
    ensures Plain(EXT_FORWARD_KEYEVENT) && Plain(EXT_MOVE)
  {
    FlatCodes(EXT_FORWARD_KEYEVENT);
    FlatCodes(EXT_MOVE);
  }

  lemma OpenReplyCodes()
    ensures Codes(OPEN_REPLY)
  {
    InnerFrames();
    var t := OPEN_REPLY;
    assert t[2].Iter? && t[1].Counter? && Counted(t, 2, 1) && Pending(t, 2) == 2;
    assert t[7].Iter? && t[5].Counter? && Counted(t, 7, 6) && Pending(t, 6) == 7;
    assert CodecOk(t);
    assert RepeatsOk(t, 3) && RepeatsOk(t, 8);
  }

  lemma QueryExtensionReplyCodes()
    ensures Codes(QUERY_EXTENSION_REPLY)
  {
    InnerFrames();
    var t := QUERY_EXTENSION_REPLY;
    assert t[2].Iter? && t[1].Counter? && Counted(t, 2, 1) && Pending(t, 2) == 2;
    assert CodecOk(t);
    assert RepeatsOk(t, 3);
  }

  lemma GetImValuesReplyCodes()
    ensures Codes(GET_IM_VALUES_REPLY)
  {
    InnerFrames();
    var t := GET_IM_VALUES_REPLY;
    assert t[2].Iter? && t[1].Counter? && Counted(t, 2, 1) && Pending(t, 2) == 2;
    assert CodecOk(t);
    assert RepeatsOk(t, 3);
  }

  lemma GetIcValuesReplyCodes()
    ensures Codes(GET_IC_VALUES_REPLY)
  {
    InnerFrames();
    var t := GET_IC_VALUES_REPLY;
    assert t[4].Iter? && t[2].Counter? && Counted(t, 4, 3) && Pending(t, 3) == 4;
    assert CodecOk(t);
    assert RepeatsOk(t, 5);
  }

  lemma RegisterTriggerkeysCodes()
    ensures Codes(REGISTER_TRIGGERKEYS)
  {
    InnerFrames();
    var t := REGISTER_TRIGGERKEYS;
    assert t[3].Iter? && t[2].Counter? && Counted(t, 3, 2) && Pending(t, 3) == 3;
    assert t[7].Iter? && t[6].Counter? && Counted(t, 7, 6) && Pending(t, 7) == 7;
    assert CodecOk(t);
    assert RepeatsOk(t, 4) && RepeatsOk(t, 8);
  }

  lemma PreeditDrawCodes()
    ensures Codes(PREEDIT_DRAW)
  {
    InnerFrames();
    var t := PREEDIT_DRAW;
    assert t[11].Iter? && t[9].Counter? && Counted(t, 11, 10) && Pending(t, 10) == 11;
    assert CodecOk(t);
    assert RepeatsOk(t, 12);
  }

  lemma StatusDrawTextCodes()
    ensures Codes(STATUS_DRAW_TEXT)
  {
    InnerFrames();
    var t := STATUS_DRAW_TEXT;
    assert t[9].Iter? && t[7].Counter? && Counted(t, 9, 8) && Pending(t, 8) == 9;
    assert CodecOk(t);
    assert RepeatsOk(t, 10);
  }

  lemma QueryExtensionCodes()
    ensures Codes(QUERY_EXTENSION)
  {
    InnerFrames();
    var t := QUERY_EXTENSION;
    assert t[2].Iter? && t[1].Counter? && Counted(t, 2, 1) && Pending(t, 2) == 2;
    assert CodecOk(t);
    assert RepeatsOk(t, 3);
  }

  lemma GetImValuesCodes()
    ensures Codes(GET_IM_VALUES)
  {
    InnerFrames();
    var t := GET_IM_VALUES;
    assert t[2].Iter? && t[1].Counter? && Counted(t, 2, 1) && Pending(t, 2) == 2;
    assert CodecOk(t);
    assert RepeatsOk(t, 3);
  }

  lemma CreateIcCodes()
    ensures Codes(CREATE_IC)
  {
    InnerFrames();
    var t := CREATE_IC;
    assert t[2].Iter? && t[1].Counter? && Counted(t, 2, 1) && Pending(t, 2) == 2;
    assert CodecOk(t);
    assert RepeatsOk(t, 3);
  }

  lemma SetIcValuesCodes()
    ensures Codes(SET_IC_VALUES)
  {
    InnerFrames();
    var t := SET_IC_VALUES;
    assert t[4].Iter? && t[2].Counter? && Counted(t, 4, 3) && Pending(t, 3) == 4;
    assert CodecOk(t);
    assert RepeatsOk(t, 5);
  }

  lemma GetIcValuesCodes()
    ensures Codes(GET_IC_VALUES)
  {
    InnerFrames();
    var t := GET_IC_VALUES;
    assert t[3].Iter? && t[2].Counter? && Counted(t, 3, 2) && Pending(t, 3) == 3;
    assert CodecOk(t);
    assert RepeatsOk(t, 4);
  }

  lemma EncodingNegotiationCodes()
    ensures Codes(ENCODING_NEGOTIATION)
  {
    InnerFrames();
    var t := ENCODING_NEGOTIATION;
    assert t[2].Iter? && t[1].Counter? && Counted(t, 2, 1) && Pending(t, 2) == 2;
    assert t[8].Iter? && t[6].Counter? && Counted(t, 8, 7) && Pending(t, 7) == 8;
    assert CodecOk(t);
    assert RepeatsOk(t, 3) && RepeatsOk(t, 9);
  }

  lemma StrConversionReplyCodes()
    ensures Codes(STR_CONVERSION_REPLY)
  {
    InnerFrames();
    var t := STR_CONVERSION_REPLY;
    assert t[8].Iter? && t[6].Counter? && Counted(t, 8, 7) && Pending(t, 7) == 8;
    assert CodecOk(t);
    assert RepeatsOk(t, 9);
  }

  lemma OpenCodes()
    ensures Codes(OPEN)
  {
    InnerFrames();
    var t := OPEN;
    assert t[0] == Pointer && t[1] == PtrItem(STR) && t[2] == Pad4(1) && STR[1].Barray?;
    assert CodecOk(t);
    assert FrameOk(t, 0);
  }

  lemma ServerFramesCode(t: Template)
    requires t in SERVER_FRAMES
    ensures Codes(t)
  {
    PlainFrames1();
    PlainFrames2();
    PlainFrames3();
    OpenReplyCodes();
    QueryExtensionReplyCodes();
    GetImValuesReplyCodes();
    GetIcValuesReplyCodes();
    RegisterTriggerkeysCodes();
    PreeditDrawCodes();
    StatusDrawTextCodes();
  }

  lemma ClientFramesCode(t: Template)
    requires t in CLIENT_FRAMES
    ensures Codes(t)
  {
    PlainFrames3();
    PlainFrames4();
    PlainFrames5();
    OpenCodes();
    QueryExtensionCodes();
    GetImValuesCodes();
    CreateIcCodes();
    SetIcValuesCodes();
    GetIcValuesCodes();
    EncodingNegotiationCodes();
    StrConversionReplyCodes();
  }

  /** The length of a byte string is the number before it; only ERROR has the kind of its string in between. */
  function LengthPlace(t: Template): nat {
    if t == ERROR then 2 else 1
  }

  lemma ErrorLengthed()
    ensures Lengthed(ERROR, 2)
  {
    var t := ERROR;
    assert t[6].Barray? && Number(t, 4) && Number(t, 5);
    assert Numbers(t, 4, 6);
  }

  /** Every message can be written and read: WriteAndRead and WriteReply hold of it. */
  lemma MessagesCode(t: Template)
    requires t in SERVER_FRAMES + CLIENT_FRAMES
    ensures TwoLevel(t) && Readable(t) && Lengthed(t, LengthPlace(t))
  {
    if t in SERVER_FRAMES {
      ServerFramesCode(t);
    } else {
      ClientFramesCode(t);
    }
    NumberBefore(t);
    ErrorLengthed();
  }

  /** The record of the list that a message of the server's ends with, or -1. */
  function ListAtEnd(t: Template): int {
    if t == QUERY_EXTENSION_REPLY || t == GET_IM_VALUES_REPLY then 2
    else if t == GET_IC_VALUES_REPLY then 4
    else if t == OPEN_REPLY || t == REGISTER_TRIGGERKEYS then 7
    else if t == STATUS_DRAW_TEXT then 9
    else if t == PREEDIT_DRAW then 11
    else -1
  }

  lemma ListsAtEnd(t: Template)
    requires t in SERVER_FRAMES && ListAtEnd(t) >= 0
    ensures LastList(t, ListAtEnd(t))
  {
    var p := ListAtEnd(t);
    assert t[p] == Iter && Boundary(t, p);
    if t[p + 1].Pointer? {
      assert Increment(t, p + 1) == p + 3;
    }
  }

  lemma PlainEnds(t: Template)
    requires t in SERVER_FRAMES && ListAtEnd(t) < 0
    ensures Plain(t)
  {
    PlainFrames1();
    PlainFrames2();
    PlainFrames3();
  }

  /** A message of the server's ends in data if and only if the list it ends with, if any, has elements; with an empty one
      the counter at its end is written by no call. */
  lemma EmptyLastList(t: Template, d: seq<Field>)
    requires t in SERVER_FRAMES
    ensures EndsInData(TokensFrom(t, d, 0)) <==> (ListAtEnd(t) >= 0 ==> ElemsOf(FieldAt(d, ListAtEnd(t))) != [])
  {
    ServerFramesCode(t);
    if ListAtEnd(t) >= 0 {
      ListsAtEnd(t);
      EndsInList(t, d, ListAtEnd(t));
    } else {
      PlainEnds(t);
      FlatNoCounts(t, d, 0);
      TailOfNoCounts(TokensFrom(t, d, 0));
    }
  }

  /** The reply to a query of extensions the server has none of: of its four bytes two are written. */
  lemma NoExtensions(d: seq<Field>)
    requires ElemsOf(FieldAt(d, 2)) == []
    ensures SizeFrom(QUERY_EXTENSION_REPLY, d, 0) == 4 && TokensSize(Written(TokensFrom(QUERY_EXTENSION_REPLY, d, 0))) == 2
  {
    var t := QUERY_EXTENSION_REPLY;
    var k, c := TokenAt(t, d, 0), TokenAt(t, d, 1);
    QueryExtensionReplyCodes();
    SimpleTokens(t, d, 0);
    SimpleTokens(t, d, 1);
    assert Increment(t, 3) == 5 && Increment(t, 2) == 5 && Increment(t, 5) == -1;
    assert ItemTokens(t, d, 2) == [] && TokensFrom(t, d, 5) == [];
    assert TokensFrom(t, d, 0) == [k, c];
    TokensFromSize(t, d, 0);
    CounterLast(k, c);
  }

  lemma CounterLast(k: Token, c: Token)
    requires k.BitsToken? && c.CountToken?
    ensures Trailing([k, c]) == [c] && Written([k, c]) == [k] && !EndsInData([k, c])
    ensures TokensSize([k]) == k.w && TokensSize([k, c]) == k.w + c.w
  {
    assert [k, c][1..] == [c] && [c][1..] == [] && [k][1..] == [];
    assert !HasData([c]);
    assert Trailing([k, c]) == Trailing([c]) == [c];
    assert Trailing([k, c])[0] == c;
  }
}
