/** The messages of src/lib/IMdkit/i18nIMProto.c as templates, and the lengths of those the server sends.  Not here: the
    connection set-up (connect_fr and auth_*_fr, of which connect_fr and auth_setup_fr repeat xpcs_fr, a frame without
    an end), the frames of single attribute values (attr_head_fr to input_styles_fr), packet_header_fr, disconnect_fr
    (empty) and ext_set_event_mask_fr, which no code uses. */
module XimFrames {
  import opened FrameTemplate

  function Pad4(n: int): Rec {
    Padding(4, n)
  }

  function ByteCounter(width: int, offset: int): Rec {
    Counter(width, true, offset)
  }

  // Frames that stand inside others
  const XIMATTR: Template := [Bits(2), Bits(2), Bits(2), Barray, Pad4(2), Eol]
  const XICATTR: Template := [Bits(2), Bits(2), Bits(2), Barray, Pad4(2), Eol]
  const XIMATTRIBUTE: Template := [Bits(2), Bits(2), Barray, Pad4(1), Eol]
  const XICATTRIBUTE: Template := [Bits(2), Bits(2), Barray, Pad4(1), Eol]
  const XIMTRIGGERKEY: Template := [Bits(4), Bits(4), Bits(4), Eol]
  const ENCODINGINFO: Template := [Bits(2), Barray, Pad4(2), Eol]
  const STR: Template := [Bits(1), Barray, Eol]
  const EXT: Template := [Bits(2), Bits(2), Bits(2), Barray, Pad4(2), Eol]

  // Messages the server sends
  const CONNECT_REPLY: Template := [Bits(2), Bits(2), Eol]
  const DISCONNECT_REPLY: Template := [Eol]
  const OPEN_REPLY: Template := [Bits(2), ByteCounter(2, 1), Iter, Pointer, PtrItem(XIMATTR),
    ByteCounter(2, 2), Pad4(1), Iter, Pointer, PtrItem(XICATTR), Eol]
  const CLOSE_REPLY: Template := [Bits(2), Pad4(1), Eol]
  const QUERY_EXTENSION_REPLY: Template := [Bits(2), ByteCounter(2, 1), Iter, Pointer, PtrItem(EXT), Eol]
  const GET_IM_VALUES_REPLY: Template := [Bits(2), ByteCounter(2, 1), Iter, Pointer, PtrItem(XIMATTRIBUTE),
    Eol]
  const CREATE_IC_REPLY: Template := [Bits(2), Bits(2), Eol]
  const DESTROY_IC_REPLY: Template := [Bits(2), Bits(2), Eol]
  const SET_IC_VALUES_REPLY: Template := [Bits(2), Bits(2), Eol]
  const GET_IC_VALUES_REPLY: Template := [Bits(2), Bits(2), ByteCounter(2, 2), Pad4(1), Iter, Pointer, PtrItem(XICATTRIBUTE),
    Eol]
  const RESET_IC_REPLY: Template := [Bits(2), Bits(2), Bits(2), Barray, Pad4(2), Eol]
  const TRIGGER_NOTIFY_REPLY: Template := [Bits(2), Bits(2), Eol]
  const ENCODING_NEGOTIATION_REPLY: Template := [Bits(2), Bits(2), Bits(2), Pad4(1), Eol]
  const REGISTER_TRIGGERKEYS: Template := [Bits(2), Pad4(1), ByteCounter(4, 1), Iter, Pointer, PtrItem(XIMTRIGGERKEY),
    ByteCounter(4, 1), Iter, Pointer, PtrItem(XIMTRIGGERKEY), Eol]
  const SET_EVENT_MASK: Template := [Bits(2), Bits(2), Bits(4), Bits(4), Eol]
  const FORWARD_EVENT: Template := [Bits(2), Bits(2), Bits(2), Bits(2), Eol]
  const SYNC: Template := [Bits(2), Bits(2), Eol]
  const COMMIT_CHARS: Template := [Bits(2), Bits(2), Bits(2), Bits(2), Barray, Pad4(1), Eol]
  const COMMIT_BOTH: Template := [Bits(2), Bits(2), Bits(2), Pad4(1), Bits(4), Bits(2), Barray, Pad4(2), Eol]
  const ERROR: Template := [Bits(2), Bits(2), Bits(2), Bits(2), Bits(2), Bits(2), Barray, Pad4(1), Eol]
  const GEOMETRY: Template := [Bits(2), Bits(2), Eol]
  const STR_CONVERSION: Template := [Bits(2), Bits(2), Bits(4), Bits(4), Bits(4), Bits(2), Bits(2), Eol]
  const PREEDIT_START: Template := [Bits(2), Bits(2), Eol]
  const PREEDIT_DRAW: Template := [Bits(2), Bits(2), Bits(4),
    Bits(4), Bits(4), Bits(4), Bits(2), Barray, Pad4(2), ByteCounter(2, 2), Pad4(1), Iter, Bits(4), Eol]
  const PREEDIT_CARET: Template := [Bits(2), Bits(2), Bits(4), Bits(4), Bits(4), Eol]
  const PREEDIT_DONE: Template := [Bits(2), Bits(2), Eol]
  const STATUS_START: Template := [Bits(2), Bits(2), Eol]
  const STATUS_DRAW_TEXT: Template := [Bits(2), Bits(2), Bits(4),
    Bits(4), Bits(2), Barray, Pad4(2), ByteCounter(2, 2), Pad4(1), Iter, Bits(4), Eol]
  const STATUS_DRAW_BITMAP: Template := [Bits(2), Bits(2), Bits(4), Bits(4), Eol]
  const STATUS_DONE: Template := [Bits(2), Bits(2), Eol]

  // Messages it receives
  const OPEN: Template := [Pointer, PtrItem(STR), Pad4(1), Eol]
  const CLOSE: Template := [Bits(2), Pad4(1), Eol]
  const QUERY_EXTENSION: Template := [Bits(2), ByteCounter(2, 1), Iter, Pointer, PtrItem(STR), Pad4(1), Eol]
  const GET_IM_VALUES: Template := [Bits(2), ByteCounter(2, 1), Iter, Bits(2), Pad4(1), Eol]
  const CREATE_IC: Template := [Bits(2), ByteCounter(2, 1), Iter, Pointer, PtrItem(XICATTRIBUTE), Eol]
  const DESTROY_IC: Template := [Bits(2), Bits(2), Eol]
  const SET_IC_VALUES: Template := [Bits(2), Bits(2), ByteCounter(2, 2), Pad4(1), Iter, Pointer, PtrItem(XICATTRIBUTE),
    Eol]
  const GET_IC_VALUES: Template := [Bits(2), Bits(2), ByteCounter(2, 1), Iter, Bits(2), Pad4(2), Eol]
  const SET_IC_FOCUS: Template := [Bits(2), Bits(2), Eol]
  const UNSET_IC_FOCUS: Template := [Bits(2), Bits(2), Eol]
  const TRIGGER_NOTIFY: Template := [Bits(2), Bits(2), Bits(4), Bits(4), Bits(4), Eol]
  const ENCODING_NEGOTIATION: Template := [Bits(2), ByteCounter(2, 1), Iter, Pointer, PtrItem(STR),
    Pad4(1), ByteCounter(2, 2), Pad4(1), Iter, Pointer, PtrItem(ENCODINGINFO), Eol]
  const SYNC_REPLY: Template := [Bits(2), Bits(2), Eol]
  const RESET_IC: Template := [Bits(2), Bits(2), Eol]
  const PREEDIT_START_REPLY: Template := [Bits(2), Bits(2), Bits(4), Eol]
  const PREEDIT_CARET_REPLY: Template := [Bits(2), Bits(2), Bits(4), Eol]
  const STR_CONVERSION_REPLY: Template := [Bits(2), Bits(2), Bits(4),
    Bits(2), Barray, Pad4(2), ByteCounter(2, 2), Pad4(1), Iter, Bits(4), Eol]
  const EXT_FORWARD_KEYEVENT: Template := [Bits(2), Bits(2), Bits(2), Bits(2), Bits(1), Bits(1), Bits(2), Bits(4),
    Bits(4), Eol]
  const EXT_MOVE: Template := [Bits(2), Bits(2), Bits(2), Bits(2), Eol]

  /** Every frame of the template is a whole number of 4-byte units. */
  ghost predicate WholeUnits(t: Template) {
    forall d :: SizeFrom(t, d, 0) % 4 == 0
  }

  lemma Whole(t: Template)
    requires DeepOk(t) && FrameResidue(t) == 0
    ensures WholeUnits(t)
  {
    forall d ensures SizeFrom(t, d, 0) % 4 == 0 {
      FrameResidueSound(t, d);
    }
  }

  lemma PlainFramesWhole1()
    ensures WholeUnits(CONNECT_REPLY) && WholeUnits(DISCONNECT_REPLY) && WholeUnits(CLOSE_REPLY)
    ensures WholeUnits(CREATE_IC_REPLY) && WholeUnits(DESTROY_IC_REPLY) && WholeUnits(SET_IC_VALUES_REPLY)
  {
    Whole(CONNECT_REPLY);
    Whole(DISCONNECT_REPLY);
    Whole(CLOSE_REPLY);
    Whole(CREATE_IC_REPLY);
    Whole(DESTROY_IC_REPLY);
    Whole(SET_IC_VALUES_REPLY);
  }

  lemma PlainFramesWhole2()
    ensures WholeUnits(TRIGGER_NOTIFY_REPLY) && WholeUnits(ENCODING_NEGOTIATION_REPLY) && WholeUnits(SET_EVENT_MASK)
    ensures WholeUnits(FORWARD_EVENT) && WholeUnits(SYNC) && WholeUnits(GEOMETRY)
  {
    Whole(TRIGGER_NOTIFY_REPLY);
    Whole(ENCODING_NEGOTIATION_REPLY);
    Whole(SET_EVENT_MASK);
    Whole(FORWARD_EVENT);
    Whole(SYNC);
    Whole(GEOMETRY);
  }

  lemma PlainFramesWhole3()
    ensures WholeUnits(PREEDIT_START) && WholeUnits(PREEDIT_DONE) && WholeUnits(STATUS_START)
    ensures WholeUnits(STATUS_DRAW_BITMAP) && WholeUnits(STATUS_DONE)
  {
    Whole(PREEDIT_START);
    Whole(PREEDIT_DONE);
    Whole(STATUS_START);
    Whole(STATUS_DRAW_BITMAP);
    Whole(STATUS_DONE);
  }

  lemma ListStep(t: Template, i: int, r0: int, r1: int, r2: int, r3: int)
    requires 0 <= i && i + 3 < |t| && t[i].Iter? && t[i + 1].Pointer? && t[i + 2].PtrItem?
    requires FrameResidue(t[i + 2].sub) == 0
    ensures Scan(t, i, r0, r1, r2, r3) == Scan(t, i + 3, r0, r0, r1, r2)
  {
    assert Increment(t, i) == i + 3;
  }

  lemma OpenReplyWhole()
    ensures WholeUnits(OPEN_REPLY)
  {
    assert DeepOk(XIMATTR) && FrameResidue(XIMATTR) == 0 && DeepOk(XICATTR) && FrameResidue(XICATTR) == 0;
    ListStep(OPEN_REPLY, 7, 0, 2, 0, 0);
    assert Scan(OPEN_REPLY, 6, 2, 0, 0, 2) == 0;
    assert Scan(OPEN_REPLY, 5, 0, 0, 2, 0) == 0;
    ListStep(OPEN_REPLY, 2, 0, 2, 0, -1);
    assert Scan(OPEN_REPLY, 1, 2, 0, -1, -1) == 0;
    Whole(OPEN_REPLY);
  }

  lemma QueryExtensionReplyWhole()
    ensures WholeUnits(QUERY_EXTENSION_REPLY)
  {
    assert DeepOk(EXT) && FrameResidue(EXT) == 0;
    ListStep(QUERY_EXTENSION_REPLY, 2, 0, 2, 0, -1);
    assert Scan(QUERY_EXTENSION_REPLY, 1, 2, 0, -1, -1) == 0;
    Whole(QUERY_EXTENSION_REPLY);
  }

  lemma GetImValuesReplyWhole()
    ensures WholeUnits(GET_IM_VALUES_REPLY)
  {
    assert DeepOk(XIMATTRIBUTE) && FrameResidue(XIMATTRIBUTE) == 0;
    ListStep(GET_IM_VALUES_REPLY, 2, 0, 2, 0, -1);
    assert Scan(GET_IM_VALUES_REPLY, 1, 2, 0, -1, -1) == 0;
    Whole(GET_IM_VALUES_REPLY);
  }

  lemma GetIcValuesReplyWhole()
    ensures WholeUnits(GET_IC_VALUES_REPLY)
  {
    assert DeepOk(XICATTRIBUTE) && FrameResidue(XICATTRIBUTE) == 0;
    ListStep(GET_IC_VALUES_REPLY, 4, 0, 2, 0, 2);
    assert Scan(GET_IC_VALUES_REPLY, 3, 2, 0, 2, 0) == 0;
    assert Scan(GET_IC_VALUES_REPLY, 2, 0, 2, 0, -1) == 0;
    assert Scan(GET_IC_VALUES_REPLY, 1, 2, 0, -1, -1) == 0;
    Whole(GET_IC_VALUES_REPLY);
  }

  lemma ResetIcReplyWhole()
    ensures WholeUnits(RESET_IC_REPLY)
  {
    assert Scan(RESET_IC_REPLY, 4, -1, 2, 0, 2) == 0;
    assert Scan(RESET_IC_REPLY, 3, 2, 0, 2, 0) == 0;
    assert Scan(RESET_IC_REPLY, 2, 0, 2, 0, -1) == 0;
    assert Scan(RESET_IC_REPLY, 1, 2, 0, -1, -1) == 0;
    Whole(RESET_IC_REPLY);
  }

  lemma RegisterTriggerkeysWhole()
    ensures WholeUnits(REGISTER_TRIGGERKEYS)
  {
    assert DeepOk(XIMTRIGGERKEY) && FrameResidue(XIMTRIGGERKEY) == 0;
    ListStep(REGISTER_TRIGGERKEYS, 7, 0, 0, 0, 0);
    assert Scan(REGISTER_TRIGGERKEYS, 6, 0, 0, 0, 2) == 0;
    ListStep(REGISTER_TRIGGERKEYS, 3, 0, 0, 2, 0);
    assert Scan(REGISTER_TRIGGERKEYS, 2, 0, 2, 0, -1) == 0;
    assert Scan(REGISTER_TRIGGERKEYS, 1, 2, 0, -1, -1) == 0;
    Whole(REGISTER_TRIGGERKEYS);
  }

  lemma CommitCharsWhole()
    ensures WholeUnits(COMMIT_CHARS)
  {
    assert Scan(COMMIT_CHARS, 5, -1, 0, 2, 0) == 0;
    assert Scan(COMMIT_CHARS, 4, 0, 2, 0, 2) == 0;
    assert Scan(COMMIT_CHARS, 3, 2, 0, 2, 0) == 0;
    assert Scan(COMMIT_CHARS, 2, 0, 2, 0, -1) == 0;
    assert Scan(COMMIT_CHARS, 1, 2, 0, -1, -1) == 0;
    Whole(COMMIT_CHARS);
  }

  lemma CommitBothWhole()
    ensures WholeUnits(COMMIT_BOTH)
  {
    assert Scan(COMMIT_BOTH, 7, -1, 2, 0, 0) == 0;
    assert Scan(COMMIT_BOTH, 6, 2, 0, 0, 2) == 0;
    assert Scan(COMMIT_BOTH, 5, 0, 0, 2, 0) == 0;
    assert Scan(COMMIT_BOTH, 4, 0, 2, 0, 2) == 0;
    assert Scan(COMMIT_BOTH, 3, 2, 0, 2, 0) == 0;
    assert Scan(COMMIT_BOTH, 2, 0, 2, 0, -1) == 0;
    assert Scan(COMMIT_BOTH, 1, 2, 0, -1, -1) == 0;
    Whole(COMMIT_BOTH);
  }

  lemma ErrorWhole()
    ensures WholeUnits(ERROR)
  {
    assert Scan(ERROR, 7, -1, 0, 2, 0) == 0;
    assert Scan(ERROR, 6, 0, 2, 0, 2) == 0;
    assert Scan(ERROR, 5, 2, 0, 2, 0) == 0;
    assert Scan(ERROR, 4, 0, 2, 0, 2) == 0;
    assert Scan(ERROR, 3, 2, 0, 2, 0) == 0;
    assert Scan(ERROR, 2, 0, 2, 0, -1) == 0;
    assert Scan(ERROR, 1, 2, 0, -1, -1) == 0;
    Whole(ERROR);
  }

  lemma StrConversionWhole()
    ensures WholeUnits(STR_CONVERSION)
  {
    assert Scan(STR_CONVERSION, 6, 2, 0, 0, 0) == 0;
    assert Scan(STR_CONVERSION, 5, 0, 0, 0, 0) == 0;
    assert Scan(STR_CONVERSION, 4, 0, 0, 0, 2) == 0;
    assert Scan(STR_CONVERSION, 3, 0, 0, 2, 0) == 0;
    assert Scan(STR_CONVERSION, 2, 0, 2, 0, -1) == 0;
    assert Scan(STR_CONVERSION, 1, 2, 0, -1, -1) == 0;
    Whole(STR_CONVERSION);
  }

  lemma PreeditDrawWhole()
    ensures WholeUnits(PREEDIT_DRAW)
  {
    assert Scan(PREEDIT_DRAW, 11, 0, 2, 0, -1) == 0;
    assert Scan(PREEDIT_DRAW, 10, 2, 0, -1, 2) == 0;
    assert Scan(PREEDIT_DRAW, 9, 0, -1, 2, 0) == 0;
    assert Scan(PREEDIT_DRAW, 8, -1, 2, 0, 0) == 0;
    assert Scan(PREEDIT_DRAW, 7, 2, 0, 0, 0) == 0;
    assert Scan(PREEDIT_DRAW, 6, 0, 0, 0, 0) == 0;
    assert Scan(PREEDIT_DRAW, 5, 0, 0, 0, 0) == 0;
    assert Scan(PREEDIT_DRAW, 4, 0, 0, 0, 2) == 0;
    assert Scan(PREEDIT_DRAW, 3, 0, 0, 2, 0) == 0;
    assert Scan(PREEDIT_DRAW, 2, 0, 2, 0, -1) == 0;
    assert Scan(PREEDIT_DRAW, 1, 2, 0, -1, -1) == 0;
    Whole(PREEDIT_DRAW);
  }

  lemma PreeditCaretWhole()
    ensures WholeUnits(PREEDIT_CARET)
  {
    assert Scan(PREEDIT_CARET, 4, 0, 0, 0, 2) == 0;
    assert Scan(PREEDIT_CARET, 3, 0, 0, 2, 0) == 0;
    assert Scan(PREEDIT_CARET, 2, 0, 2, 0, -1) == 0;
    assert Scan(PREEDIT_CARET, 1, 2, 0, -1, -1) == 0;
    Whole(PREEDIT_CARET);
  }

  lemma StatusDrawTextWhole()
    ensures WholeUnits(STATUS_DRAW_TEXT)
  {
    assert Scan(STATUS_DRAW_TEXT, 9, 0, 2, 0, -1) == 0;
    assert Scan(STATUS_DRAW_TEXT, 8, 2, 0, -1, 2) == 0;
    assert Scan(STATUS_DRAW_TEXT, 7, 0, -1, 2, 0) == 0;
    assert Scan(STATUS_DRAW_TEXT, 6, -1, 2, 0, 0) == 0;
    assert Scan(STATUS_DRAW_TEXT, 5, 2, 0, 0, 0) == 0;
    assert Scan(STATUS_DRAW_TEXT, 4, 0, 0, 0, 2) == 0;
    assert Scan(STATUS_DRAW_TEXT, 3, 0, 0, 2, 0) == 0;
    assert Scan(STATUS_DRAW_TEXT, 2, 0, 2, 0, -1) == 0;
    assert Scan(STATUS_DRAW_TEXT, 1, 2, 0, -1, -1) == 0;
    Whole(STATUS_DRAW_TEXT);
  }

  const SERVER_FRAMES: seq<Template> := [
    CONNECT_REPLY, DISCONNECT_REPLY, OPEN_REPLY, CLOSE_REPLY, QUERY_EXTENSION_REPLY,
    GET_IM_VALUES_REPLY, CREATE_IC_REPLY, DESTROY_IC_REPLY, SET_IC_VALUES_REPLY, GET_IC_VALUES_REPLY,
    RESET_IC_REPLY, TRIGGER_NOTIFY_REPLY, ENCODING_NEGOTIATION_REPLY, REGISTER_TRIGGERKEYS,
    SET_EVENT_MASK, FORWARD_EVENT, SYNC, COMMIT_CHARS, COMMIT_BOTH, ERROR, GEOMETRY, STR_CONVERSION,
    PREEDIT_START, PREEDIT_DRAW, PREEDIT_CARET, PREEDIT_DONE, STATUS_START, STATUS_DRAW_TEXT,
    STATUS_DRAW_BITMAP, STATUS_DONE]

  const CLIENT_FRAMES: seq<Template> := [
    OPEN, CLOSE, QUERY_EXTENSION, GET_IM_VALUES, CREATE_IC, DESTROY_IC, SET_IC_VALUES, GET_IC_VALUES, SET_IC_FOCUS,
    UNSET_IC_FOCUS, TRIGGER_NOTIFY, ENCODING_NEGOTIATION, SYNC_REPLY, RESET_IC, PREEDIT_START_REPLY, PREEDIT_CARET_REPLY,
    STR_CONVERSION_REPLY, EXT_FORWARD_KEYEVENT, EXT_MOVE]

  /** Every message the server sends is a whole number of 4-byte units, for all string
      lengths and list counts: length/4 in the header drops nothing. */
  lemma ServerFramesWhole(t: Template)
    requires t in SERVER_FRAMES
    ensures WholeUnits(t)
  {
    PlainFramesWhole1();
    PlainFramesWhole2();
    PlainFramesWhole3();
    OpenReplyWhole();
    QueryExtensionReplyWhole();
    GetImValuesReplyWhole();
    GetIcValuesReplyWhole();
    ResetIcReplyWhole();
    RegisterTriggerkeysWhole();
    CommitCharsWhole();
    CommitBothWhole();
    ErrorWhole();
    StrConversionWhole();
    PreeditDrawWhole();
    PreeditCaretWhole();
    StatusDrawTextWhole();
  }
}
