/** The mode bits of the XIM server and the input method each context is bound to (src/xim.c, src/xim_IC.c). */
module InputModes {

  import opened Sealed

  const MAX_IM_ENTRY := 12

  /** The flags of inp_state: input method on, wide characters on, and the focus of each. */
  datatype InpState = InpState(cinput: bool, wide: bool, ximFocus: bool, wideFocus: bool)

  /** The flags of ic_state. */
  datatype IcState = IcState(isNew: bool, connected: bool, inFocus: bool)

  /** The flags of xcin_mode that bear on input methods: those from the configuration, and the run-time ones. */
  datatype Mode = Mode(focusOn: bool, singleImc: bool, runIm: bool, runWide: bool)

  const OFF := InpState(false, false, false, false)
  const NEW_IC := IcState(true, false, false)

  /** An input method module, named by its slot, or none. */
  datatype Module = NoModule | Slot(n: int)

  datatype Imc = Imc(inpState: InpState, inpNum: int, imodp: Module)

  datatype Core = Core(mode: Mode, imFocus: int, defaultIm: int)

  datatype Ic = Ic(imc: nat, icState: IcState)

  /** IM_get finds a module in this slot. */
  predicate Loadable(loadable: seq<bool>, n: int) {
    0 <= n < |loadable| && loadable[n]
  }

  predicate IsEnglish(n: int) {
    n < 0 || n >= MAX_IM_ENTRY
  }

  function CinputOff(bits: InpState): InpState {
    bits.(cinput := false, ximFocus := false)
  }

  function CinputOn(bits: InpState): InpState {
    bits.(cinput := true, ximFocus := true)
  }

  function RunImOff(core: Core): Core {
    if core.mode.focusOn then core.(mode := core.mode.(runIm := false)) else core
  }

  /** The server's own modes follow the input method chosen. */
  function Following(core: Core, n: int): Core {
    var c1 := if core.mode.focusOn then core.(mode := core.mode.(runIm := true), imFocus := n) else core;
    if core.mode.singleImc then c1.(defaultIm := n) else c1
  }

  /** An IM context whose module is left. */
  function Left(imc: Imc): Imc {
    imc.(inpState := CinputOff(imc.inpState))
  }

  /** What change_IM leaves behind; the bits of the old module go before those of the new one come. */
  function Changed(loadable: seq<bool>, imc: Imc, core: Core, n: int): (Imc, Core, bool) {
    if IsEnglish(n) then
      ((if imc.imodp != NoModule then Left(imc) else imc).(imodp := NoModule), RunImOff(core), true)
    else if !Loadable(loadable, n) then (imc, core, false)
    else
      var off := if imc.imodp != NoModule && imc.imodp != Slot(n) then Left(imc) else imc;
      (Imc(CinputOn(off.inpState), n, Slot(n)), Following(core, n), true)
  }

  /** The slot one step on; the slot behind the last is English, and the circle closes there. */
  function NextSlot(j: int, direction: int): int {
    var k := j + direction;
    if k < 0 then k + (MAX_IM_ENTRY + 1) else if k > MAX_IM_ENTRY then k - (MAX_IM_ENTRY + 1) else k
  }

  function Hop(j: int, direction: int, k: nat): int {
    if k == 0 then j else NextSlot(Hop(j, direction, k - 1), direction)
  }

  /** The slot a circular change starts from. */
  function Current(imc: Imc): int {
    if imc.inpState.cinput then imc.inpNum else MAX_IM_ENTRY
  }

  /** How many steps to the first slot that can be changed to, English included. */
  function Steps(loadable: seq<bool>, j: int, direction: int, k: nat): nat
    decreases MAX_IM_ENTRY + 1 - k
  {
    if k > MAX_IM_ENTRY || IsEnglish(Hop(j, direction, k)) || Loadable(loadable, Hop(j, direction, k)) then k
    else Steps(loadable, j, direction, k + 1)
  }

  /** k slots on, and none of them the one to stop at. */
  ghost predicate Circling(loadable: seq<bool>, from: int, direction: int, k: nat, j: int, target: nat) {
    k < target <= MAX_IM_ENTRY + 1 && forall n :: Asked(n, (k, j)) ==>
      j == Hop(from, direction, k) && target == Steps(loadable, from, direction, k + 1)
      && (IsEnglish(Hop(from, direction, target)) || Loadable(loadable, Hop(from, direction, target)))
  }

  lemma CircleStep(loadable: seq<bool>, from: int, direction: int, k: nat, next: nat, j: int, target: nat)
    requires Circling(loadable, from, direction, k, j, target) && next == k + 1
    ensures var to := NextSlot(j, direction);
      && to == Hop(from, direction, next)
      && if IsEnglish(to) || Loadable(loadable, to) then next == target else Circling(loadable, from, direction, next, to, target)
  {
    assert Asked(0, (k, j));
  }

  lemma {:induction false} HopsForward(j: int, k: nat)
    requires 0 <= j <= MAX_IM_ENTRY && k <= MAX_IM_ENTRY + 1
    ensures Hop(j, 1, k) == if j + k <= MAX_IM_ENTRY then j + k else j + k - (MAX_IM_ENTRY + 1)
  {
    if k > 0 {
      HopsForward(j, k - 1);
    }
  }

  lemma {:induction false} HopsBackward(j: int, k: nat)
    requires 0 <= j <= MAX_IM_ENTRY && k <= MAX_IM_ENTRY + 1
    ensures Hop(j, -1, k) == if j - k >= 0 then j - k else j - k + (MAX_IM_ENTRY + 1)
  {
    if k > 0 {
      HopsBackward(j, k - 1);
    }
  }

  lemma {:induction false} StepsBefore(loadable: seq<bool>, j: int, direction: int, k: nat, m: nat)
    requires k <= m < Steps(loadable, j, direction, k)
    ensures !IsEnglish(Hop(j, direction, m)) && !Loadable(loadable, Hop(j, direction, m))
    decreases MAX_IM_ENTRY + 1 - k
  {
    if k < m {
      StepsBefore(loadable, j, direction, k + 1, m);
    }
  }

  lemma {:induction false} StepsBound(loadable: seq<bool>, j: int, direction: int, k: nat)
    requires k <= MAX_IM_ENTRY + 1
    ensures k <= Steps(loadable, j, direction, k) <= MAX_IM_ENTRY + 1
    decreases MAX_IM_ENTRY + 1 - k
  {
    if k <= MAX_IM_ENTRY {
      StepsBound(loadable, j, direction, k + 1);
    }
  }

  /** In a full circle the search always ends on a slot that can be changed to, and passes over none. */
  lemma CircleEnds(loadable: seq<bool>, j: int, direction: int)
    requires 0 <= j <= MAX_IM_ENTRY && (direction == 1 || direction == -1)
    ensures var k := Steps(loadable, j, direction, 1); var n := Hop(j, direction, k);
      && 1 <= k <= MAX_IM_ENTRY + 1 && 0 <= n <= MAX_IM_ENTRY && (IsEnglish(n) || Loadable(loadable, n))
      && forall m :: 1 <= m < k ==> !IsEnglish(Hop(j, direction, m)) && !Loadable(loadable, Hop(j, direction, m))
  {
    var k := Steps(loadable, j, direction, 1);
    StepsBound(loadable, j, direction, 1);
    forall m: nat | 1 <= m < k ensures !IsEnglish(Hop(j, direction, m)) && !Loadable(loadable, Hop(j, direction, m)) {
      StepsBefore(loadable, j, direction, 1, m);
    }
    if direction == 1 {
      HopsForward(j, if j == MAX_IM_ENTRY then MAX_IM_ENTRY + 1 else MAX_IM_ENTRY - j);
      HopsForward(j, k);
    } else {
      HopsBackward(j, j + 1);
      HopsBackward(j, k);
    }
    StepsEnd(loadable, j, direction, 1);
  }

  lemma {:induction false} StepsEnd(loadable: seq<bool>, j: int, direction: int, k: nat)
    requires k <= MAX_IM_ENTRY + 1
    ensures var e := Steps(loadable, j, direction, k);
      e == MAX_IM_ENTRY + 1 || IsEnglish(Hop(j, direction, e)) || Loadable(loadable, Hop(j, direction, e))
    decreases MAX_IM_ENTRY + 1 - k
  {
    if k <= MAX_IM_ENTRY {
      StepsEnd(loadable, j, direction, k + 1);
    }
  }

  // The flags as the bits of a byte

  const IM_CINPUT: bv8 := 0x01
  const IM_2BYTES: bv8 := 0x02
  const IM_XIMFOCUS: bv8 := 0x04
  const IM_2BFOCUS: bv8 := 0x08

  function Bits(s: InpState): bv8 {
    (if s.cinput then IM_CINPUT else 0) | (if s.wide then IM_2BYTES else 0)
    | (if s.ximFocus then IM_XIMFOCUS else 0) | (if s.wideFocus then IM_2BFOCUS else 0)
  }

  /** Testing, setting and clearing bits is testing, setting and clearing flags. */
  lemma FlagsAreBits(s: InpState)
    ensures s.cinput <==> Bits(s) & IM_CINPUT != 0
    ensures s.wide <==> Bits(s) & IM_2BYTES != 0
    ensures s.ximFocus <==> Bits(s) & IM_XIMFOCUS != 0
    ensures s.wideFocus <==> Bits(s) & IM_2BFOCUS != 0
    ensures Bits(CinputOn(s)) == Bits(s) | (IM_CINPUT | IM_XIMFOCUS)
    ensures Bits(CinputOff(s)) == Bits(s) & !(IM_CINPUT | IM_XIMFOCUS)
    ensures Bits(s.(wide := true, wideFocus := true)) == Bits(s) | (IM_2BYTES | IM_2BFOCUS)
    ensures Bits(s.(wide := false, wideFocus := false)) == Bits(s) & !(IM_2BYTES | IM_2BFOCUS)
    ensures Bits(FocusBits(s)) == Bits(s) | (if s.cinput then IM_XIMFOCUS else 0) | (if s.wide then IM_2BFOCUS else 0)
    ensures Bits(UnfocusBits(s)) == Bits(s) & !((if s.cinput then IM_XIMFOCUS else 0) | (if s.wide then IM_2BFOCUS else 0))
  {
  }

  // The handlers

  /** The IM contexts, the contexts that use them, and the server's own modes. */
  datatype World = World(imcs: seq<Imc>, ics: seq<Ic>, core: Core)

  /** The keys bound to functions, and the plain ones; those go to the input method, which does not touch these modes. */
  datatype Key = Zhen | TwoBytes | Circle(direction: int) | ImNumber(n: int) | ImFocus | QPhrase | OtherFunction | Plain

  predicate Within(w: World, i: nat) {
    i < |w.ics| && w.ics[i].imc < |w.imcs|
  }

  function ImcOf(w: World, i: nat): Imc
    requires Within(w, i)
  {
    w.imcs[w.ics[i].imc]
  }

  function SetImc(w: World, i: nat, imc: Imc): (r: World)
    requires Within(w, i)
    ensures Within(r, i) && r.ics == w.ics && r.core == w.core
  {
    w.(imcs := w.imcs[w.ics[i].imc := imc])
  }

  function SetBits(w: World, i: nat, bits: InpState): (r: World)
    requires Within(w, i)
    ensures Within(r, i) && r.ics == w.ics && r.core == w.core
  {
    SetImc(w, i, ImcOf(w, i).(inpState := bits))
  }

  function SetIcState(w: World, i: nat, flags: IcState): (r: World)
    requires Within(w, i)
    ensures Within(r, i) && r.imcs == w.imcs && r.core == w.core
  {
    w.(ics := w.ics[i := w.ics[i].(icState := flags)])
  }

  function ChangeTo(loadable: seq<bool>, w: World, i: nat, n: int): (r: World)
    requires Within(w, i)
    ensures Within(r, i) && r.ics == w.ics
  {
    var (imc, core, ok) := Changed(loadable, ImcOf(w, i), w.core, n);
    SetImc(w, i, imc).(core := core)
  }

  function CircleTo(loadable: seq<bool>, w: World, i: nat, direction: int): (r: World)
    requires Within(w, i)
    ensures Within(r, i) && r.ics == w.ics
  {
    var j := Current(ImcOf(w, i));
    ChangeTo(loadable, w, i, Hop(j, direction, Steps(loadable, j, direction, 1)))
  }

  /** ic_create: a context with an IM context of its own, or the one shared; it starts with the number of the input method to use. */
  function Created(w: World): World
    requires w.core.mode.singleImc ==> |w.imcs| <= 1
  {
    var num := if w.core.mode.focusOn then w.core.imFocus else w.core.defaultIm;
    var single := w.core.mode.singleImc;
    var imcs := if single && w.imcs != [] then w.imcs else w.imcs + [Imc(OFF, 0, NoModule)];
    var imc := |imcs| - 1;
    World(imcs[imc := imcs[imc].(inpNum := num)], w.ics + [Ic(imc, NEW_IC)], w.core)
  }

  /** delete_IC: the context goes, and its modes with it; an IM context that is shared keeps them, and one of its own is cleared before
      it is used again. */
  function Destroyed(w: World, i: nat): World
    requires i < |w.ics|
  {
    w.(ics := w.ics[..i] + w.ics[i + 1..])
  }

  /** The two-byte bits set or cleared together. */
  function Widened(bits: InpState, on: bool): InpState {
    if on then bits.(wide := true, wideFocus := true) else bits.(wide := false, wideFocus := false)
  }

  /** The focus bits follow the mode bits. */
  function FocusBits(bits: InpState): InpState {
    var b1 := if bits.cinput then bits.(ximFocus := true) else bits;
    if b1.wide then b1.(wideFocus := true) else b1
  }

  function WithIm(loadable: seq<bool>, w: World, i: nat): (r: World)
    requires Within(w, i)
    ensures Within(r, i)
  {
    if w.core.mode.runIm then ChangeTo(loadable, w, i, w.core.imFocus) else w
  }

  function WithWide(w: World, i: nat): (r: World)
    requires Within(w, i)
    ensures Within(r, i)
  {
    if w.core.mode.runWide then SetBits(w, i, ImcOf(w, i).inpState.(wide := true, wideFocus := true)) else w
  }

  /** What comes along with the first focus of a new context: the input method and the wide characters; started says whether the client agreed. */
  function BroughtAlong(loadable: seq<bool>, w: World, i: nat, started: bool): (r: World)
    requires Within(w, i)
    ensures Within(r, i)
  {
    if !(w.core.mode.runIm || w.core.mode.runWide) then w
    else
      var w1 := SetIcState(w, i, w.ics[i].icState.(connected := true));
      if !w.ics[i].icState.connected && !started then w1 else WithWide(WithIm(loadable, w1, i), i)
  }

  /** The first focus of a new context. */
  function FirstFocus(loadable: seq<bool>, w: World, i: nat, started: bool): (r: World)
    requires Within(w, i)
    ensures Within(r, i)
  {
    var last := BroughtAlong(loadable, w, i, started);
    SetIcState(last, i, last.ics[i].icState.(isNew := false))
  }

  /** With one IM context for all, the context in focus is connected exactly while there is a mode. */
  function Connected(w: World, i: nat): (r: World)
    requires Within(w, i)
    ensures Within(r, i)
  {
    if !w.core.mode.singleImc then w
    else SetIcState(w, i, if (ImcOf(w, i).inpState.cinput || ImcOf(w, i).inpState.wide) then w.ics[i].icState.(connected := true)
                          else w.ics[i].icState.(connected := false))
  }

  /** xim_set_focus_handler. */
  function Focused(loadable: seq<bool>, w: World, i: nat, started: bool): (r: World)
    requires Within(w, i)
    ensures Within(r, i)
  {
    if w.ics[i].icState.inFocus then w
    else
      var w1 := SetBits(w, i, FocusBits(ImcOf(w, i).inpState));
      var w2 := SetIcState(w1, i, w1.ics[i].icState.(inFocus := true));
      Connected(if w2.ics[i].icState.isNew then FirstFocus(loadable, w2, i, started) else w2, i)
  }

  /** xim_unset_focus_handler. */
  function Unfocused(w: World, i: nat): (r: World)
    requires Within(w, i)
    ensures Within(r, i)
  {
    if !w.ics[i].icState.inFocus then w
    else
      var w1 := if w.core.mode.singleImc then w else SetBits(w, i, UnfocusBits(ImcOf(w, i).inpState));
      SetIcState(w1, i, w1.ics[i].icState.(inFocus := false))
  }

  function UnfocusBits(bits: InpState): InpState {
    var b1 := if bits.cinput then bits.(ximFocus := false) else bits;
    if b1.wide then b1.(wideFocus := false) else b1
  }

  function Disconnected(w: World, i: nat): (r: World)
    requires Within(w, i)
    ensures Within(r, i)
  {
    SetIcState(w, i, w.ics[i].icState.(connected := false))
  }

  /** The run-time focus on wide characters follows them while the focus mode is on. */
  function TwoByteMode(core: Core, on: bool): Core {
    if !core.mode.focusOn then core
    else core.(mode := if on then core.mode.(runWide := true) else core.mode.(runWide := false))
  }

  /** What a key does to the modes when it triggers the server; the second is whether the client stays connected. */
  function TriggerModes(loadable: seq<bool>, w: World, i: nat, key: Key): (r: (World, bool))
    requires Within(w, i)
    ensures Within(r.0, i) && r.0.ics == w.ics
  {
    match key
    case Zhen => var n := ImcOf(w, i).inpNum; (ChangeTo(loadable, w, i, n), IsEnglish(n) || Loadable(loadable, n))
    case TwoBytes => (SetBits(w, i, ImcOf(w, i).inpState.(wide := true, wideFocus := true)).(core := TwoByteMode(w.core, true)), true)
    case Circle(direction) => var r := CircleTo(loadable, w, i, direction); (r, ImcOf(r, i).inpState.cinput)
    case ImNumber(n) => (ChangeTo(loadable, w, i, n), IsEnglish(n) || Loadable(loadable, n))
    case QPhrase => (w, false)
    case _ => (w, true)
  }

  /** xim_trigger_handler. */
  function Triggered(loadable: seq<bool>, w: World, i: nat, key: Key): (r: World)
    requires Within(w, i)
    ensures Within(r, i)
  {
    var (w1, stays) := TriggerModes(loadable, SetIcState(w, i, w.ics[i].icState.(inFocus := true, connected := true)), i, key);
    if stays then w1 else Disconnected(w1, i)
  }

  /** The key that turns the focus mode on and off. */
  function FocusMode(imc: Imc, core: Core): Core {
    if core.mode.focusOn then core.(mode := core.mode.(focusOn := false, runIm := false, runWide := false))
    else core.(mode := core.mode.(focusOn := true, runIm := core.mode.runIm || imc.inpState.cinput,
                                         runWide := core.mode.runWide || !imc.inpState.cinput),
               imFocus := imc.inpNum)
  }

  /** What a forwarded key does to the modes. */
  function KeyModes(loadable: seq<bool>, w: World, i: nat, key: Key): (r: World)
    requires Within(w, i)
    ensures Within(r, i) && r.ics == w.ics
  {
    var imc := ImcOf(w, i);
    match key
    case Zhen => ChangeTo(loadable, w, i, if imc.inpState.cinput then -1 else imc.inpNum)
    case TwoBytes =>
      if imc.inpState.wide then SetBits(w, i, imc.inpState.(wide := false, wideFocus := false)).(core := TwoByteMode(w.core, false))
      else SetBits(w, i, imc.inpState.(wide := true, wideFocus := true)).(core := TwoByteMode(w.core, true))
    case Circle(direction) => CircleTo(loadable, w, i, direction)
    case ImNumber(n) => ChangeTo(loadable, w, i, n)
    case ImFocus => w.(core := FocusMode(imc, w.core))
    case _ => w
  }

  /** forward_keys_handler and its caller: without any mode left the context is disconnected. */
  function Keyed(loadable: seq<bool>, w: World, i: nat, key: Key): (r: World)
    requires Within(w, i)
    ensures Within(r, i)
  {
    var w1 := KeyModes(loadable, w, i, key);
    if key != Plain && !(ImcOf(w1, i).inpState.cinput || ImcOf(w1, i).inpState.wide) then Disconnected(w1, i) else w1
  }

  // What every run keeps

  /** A module is bound exactly in input method mode, it is the one of the context's number, and a focus bit has its mode bit. */
  ghost predicate ImcSound(loadable: seq<bool>, imc: Imc) {
    && (imc.inpState.cinput <==> imc.imodp != NoModule)
    && (imc.inpState.ximFocus ==> imc.inpState.cinput)
    && (imc.inpState.wideFocus ==> imc.inpState.wide)
    && 0 <= imc.inpNum < MAX_IM_ENTRY
    && (imc.imodp != NoModule ==> imc.imodp == Slot(imc.inpNum) && Loadable(loadable, imc.inpNum))
  }

  /** The run-time focus bits are off outside the focus mode. */
  ghost predicate CoreSound(core: Core) {
    && (core.mode.runIm || core.mode.runWide ==> core.mode.focusOn)
    && 0 <= core.imFocus < MAX_IM_ENTRY && 0 <= core.defaultIm < MAX_IM_ENTRY
  }

  /** With one IM context for all, a new context keeps the number of the module bound. */
  ghost predicate SharedSound(w: World) {
    w.core.mode.singleImc ==>
      |w.imcs| <= 1 && forall a :: 0 <= a < |w.imcs| && w.imcs[a].imodp != NoModule ==>
        w.core.defaultIm == w.imcs[a].inpNum && (w.core.mode.focusOn ==> w.core.imFocus == w.imcs[a].inpNum)
  }

  ghost predicate Sound(loadable: seq<bool>, w: World) {
    forall k: int :: Asked(k, w) ==> AllSound(loadable, w)
  }

  ghost predicate AllSound(loadable: seq<bool>, w: World) {
    && CoreSound(w.core) && SharedSound(w)
    && (forall a :: 0 <= a < |w.imcs| ==> ImcSound(loadable, w.imcs[a]))
    && forall i :: 0 <= i < |w.ics| ==> w.ics[i].imc < |w.imcs|
  }

  lemma ChangedSound(loadable: seq<bool>, imc: Imc, core: Core, n: int)
    requires ImcSound(loadable, imc) && CoreSound(core) && |loadable| <= MAX_IM_ENTRY
    ensures var (imc', core', ok) := Changed(loadable, imc, core, n);
      && ImcSound(loadable, imc') && CoreSound(core') && ok == (IsEnglish(n) || Loadable(loadable, n))
      && core'.mode.singleImc == core.mode.singleImc && core'.mode.focusOn == core.mode.focusOn
      && (ok && !IsEnglish(n) ==> imc'.imodp == Slot(n) && imc'.inpState.ximFocus)
      && (IsEnglish(n) ==> imc'.imodp == NoModule && imc'.inpNum == imc.inpNum)
      && imc'.inpState.wide == imc.inpState.wide && imc'.inpState.wideFocus == imc.inpState.wideFocus
  {
  }

  /** A change of one IM context and of the server's modes keeps the world sound. */
  lemma PutSound(loadable: seq<bool>, w: World, i: nat, imc: Imc, core: Core)
    requires Sound(loadable, w) && Within(w, i) && ImcSound(loadable, imc) && CoreSound(core)
    requires core.mode.singleImc == w.core.mode.singleImc
    requires core.mode.singleImc && imc.imodp != NoModule ==>
      core.defaultIm == imc.inpNum && (core.mode.focusOn ==> core.imFocus == imc.inpNum)
    ensures Sound(loadable, SetImc(w, i, imc).(core := core))
  {
    assert Asked(0, w);
  }

  lemma OneContext(loadable: seq<bool>, w: World, i: nat)
    requires Sound(loadable, w) && Within(w, i)
    ensures ImcSound(loadable, ImcOf(w, i)) && CoreSound(w.core)
    ensures w.core.mode.singleImc && ImcOf(w, i).imodp != NoModule ==>
      w.core.defaultIm == ImcOf(w, i).inpNum && (w.core.mode.focusOn ==> w.core.imFocus == ImcOf(w, i).inpNum)
  {
    assert Asked(0, w);
  }

  lemma ChangeSound(loadable: seq<bool>, w: World, i: nat, n: int)
    requires Sound(loadable, w) && Within(w, i) && |loadable| <= MAX_IM_ENTRY
    ensures Sound(loadable, ChangeTo(loadable, w, i, n))
  {
    var imc := ImcOf(w, i);
    var (imc', core', ok) := Changed(loadable, imc, w.core, n);
    OneContext(loadable, w, i);
    ChangedSound(loadable, imc, w.core, n);
    PutSound(loadable, w, i, imc', core');
  }


  lemma CircleSound(loadable: seq<bool>, w: World, i: nat, direction: int)
    requires Sound(loadable, w) && Within(w, i) && |loadable| <= MAX_IM_ENTRY
    ensures Sound(loadable, CircleTo(loadable, w, i, direction))
  {
    var j := Current(ImcOf(w, i));
    ChangeSound(loadable, w, i, Hop(j, direction, Steps(loadable, j, direction, 1)));
  }

  /** New bits that keep the input method bit, and focus bits only with their mode bits. */
  lemma BitsSound(loadable: seq<bool>, w: World, i: nat, bits: InpState, core: Core)
    requires Sound(loadable, w) && Within(w, i) && bits.cinput == ImcOf(w, i).inpState.cinput
    requires (bits.ximFocus ==> bits.cinput) && (bits.wideFocus ==> bits.wide)
    requires CoreSound(core) && core.imFocus == w.core.imFocus && core.defaultIm == w.core.defaultIm
    requires core.mode.singleImc == w.core.mode.singleImc && core.mode.focusOn == w.core.mode.focusOn
    ensures Sound(loadable, SetBits(w, i, bits).(core := core))
  {
    OneContext(loadable, w, i);
    PutSound(loadable, w, i, ImcOf(w, i).(inpState := bits), core);
  }



  lemma IcStateSound(loadable: seq<bool>, w: World, i: nat, flags: IcState)
    requires Sound(loadable, w) && Within(w, i)
    ensures Sound(loadable, SetIcState(w, i, flags))
  {
    assert Asked(0, w);
  }


  lemma CreatedSound(loadable: seq<bool>, w: World)
    requires Sound(loadable, w)
    ensures w.core.mode.singleImc ==> |w.imcs| <= 1
    ensures Sound(loadable, Created(w))
  {
    assert Asked(0, w);
  }

  /** The k-th context of w, with its flags and its modes, stands at place k' of w'. */
  predicate SameContext(w: World, k: nat, w': World, k': nat) {
    Within(w, k) && Within(w', k') && w'.ics[k'] == w.ics[k] && ImcOf(w', k') == ImcOf(w, k)
  }

  /** Where the k-th context stands when another one, the i-th, is gone. */
  function Moved(k: nat, i: nat): (r: nat)
    requires k != i
  {
    if k < i then k else k - 1
  }

  /** Every context that stays keeps its place among the others, its flags and its modes. */
  lemma DestroyedSound(loadable: seq<bool>, w: World, i: nat)
    requires Sound(loadable, w) && i < |w.ics|
    ensures Sound(loadable, Destroyed(w, i)) && |Destroyed(w, i).ics| == |w.ics| - 1
    ensures forall k: nat {:trigger Moved(k, i)} :: k < |w.ics| && k != i ==> SameContext(w, k, Destroyed(w, i), Moved(k, i))
  {
    assert Asked(0, w);
    var w' := Destroyed(w, i);
    forall k: int | Asked(k, w')
      ensures AllSound(loadable, w')
    {
    }
    forall k: nat | k < |w.ics| && k != i
      ensures SameContext(w, k, w', Moved(k, i))
    {
    }
  }

  lemma FirstFocusSound(loadable: seq<bool>, w: World, i: nat, started: bool)
    requires Sound(loadable, w) && Within(w, i) && |loadable| <= MAX_IM_ENTRY
    ensures Sound(loadable, FirstFocus(loadable, w, i, started))
  {
    var w1 := SetIcState(w, i, w.ics[i].icState.(connected := true));
    IcStateSound(loadable, w, i, w.ics[i].icState.(connected := true));
    ChangeSound(loadable, w1, i, w1.core.imFocus);
    WideSound(loadable, WithIm(loadable, w1, i), i);
    var last := BroughtAlong(loadable, w, i, started);
    IcStateSound(loadable, last, i, last.ics[i].icState.(isNew := false));
  }

  lemma WideSound(loadable: seq<bool>, w: World, i: nat)
    requires Sound(loadable, w) && Within(w, i)
    ensures Sound(loadable, SetBits(w, i, ImcOf(w, i).inpState.(wide := true, wideFocus := true)))
  {
    OneContext(loadable, w, i);
    var bits := ImcOf(w, i).inpState;
    BitsSound(loadable, w, i, bits.(wide := true, wideFocus := true), w.core);
    assert SetBits(w, i, bits.(wide := true, wideFocus := true)).(core := w.core) == SetBits(w, i, bits.(wide := true, wideFocus := true));
  }

  lemma FocusedSound(loadable: seq<bool>, w: World, i: nat, started: bool)
    requires Sound(loadable, w) && Within(w, i) && |loadable| <= MAX_IM_ENTRY
    ensures Sound(loadable, Focused(loadable, w, i, started))
  {
    OneContext(loadable, w, i);
    var bits := ImcOf(w, i).inpState;
    BitsSound(loadable, w, i, FocusBits(bits), w.core);
    var w1 := SetBits(w, i, FocusBits(bits));
    assert w1.(core := w.core) == w1;
    var w2 := SetIcState(w1, i, w1.ics[i].icState.(inFocus := true));
    IcStateSound(loadable, w1, i, w1.ics[i].icState.(inFocus := true));
    FirstFocusSound(loadable, w2, i, started);
    ConnectedSound(loadable, FirstFocus(loadable, w2, i, started), i);
    ConnectedSound(loadable, w2, i);
  }

  lemma ConnectedSound(loadable: seq<bool>, w: World, i: nat)
    requires Sound(loadable, w) && Within(w, i)
    ensures Sound(loadable, Connected(w, i))
  {
    IcStateSound(loadable, w, i, w.ics[i].icState.(connected := true));
    IcStateSound(loadable, w, i, w.ics[i].icState.(connected := false));
  }

  lemma UnfocusedSound(loadable: seq<bool>, w: World, i: nat)
    requires Sound(loadable, w) && Within(w, i)
    ensures Sound(loadable, Unfocused(w, i))
  {
    OneContext(loadable, w, i);
    var bits := ImcOf(w, i).inpState;
    BitsSound(loadable, w, i, UnfocusBits(bits), w.core);
    var w1 := SetBits(w, i, UnfocusBits(bits));
    assert w1.(core := w.core) == w1;
    IcStateSound(loadable, w1, i, w1.ics[i].icState.(inFocus := false));
    IcStateSound(loadable, w, i, w.ics[i].icState.(inFocus := false));
  }

  lemma TriggeredSound(loadable: seq<bool>, w: World, i: nat, key: Key)
    requires Sound(loadable, w) && Within(w, i) && |loadable| <= MAX_IM_ENTRY
    ensures Sound(loadable, Triggered(loadable, w, i, key))
  {
    var bits := w.ics[i].icState.(inFocus := true, connected := true);
    IcStateSound(loadable, w, i, bits);
    TriggerSound(loadable, SetIcState(w, i, bits), i, key);
    var w1 := TriggerModes(loadable, SetIcState(w, i, bits), i, key).0;
    IcStateSound(loadable, w1, i, w1.ics[i].icState.(connected := false));
  }

  lemma TriggerSound(loadable: seq<bool>, w: World, i: nat, key: Key)
    requires Sound(loadable, w) && Within(w, i) && |loadable| <= MAX_IM_ENTRY
    ensures Sound(loadable, TriggerModes(loadable, w, i, key).0)
  {
    match key
    case Zhen => ChangeSound(loadable, w, i, ImcOf(w, i).inpNum);
    case TwoBytes => WideModeSound(loadable, w, i, true);
    case Circle(direction) => CircleSound(loadable, w, i, direction);
    case ImNumber(n) => ChangeSound(loadable, w, i, n);
    case _ =>
  }

  lemma WideModeSound(loadable: seq<bool>, w: World, i: nat, on: bool)
    requires Sound(loadable, w) && Within(w, i)
    ensures var bits := ImcOf(w, i).inpState;
      Sound(loadable, SetBits(w, i, Widened(bits, on)).(core := TwoByteMode(w.core, on)))
  {
    var bits := ImcOf(w, i).inpState;
    OneContext(loadable, w, i);
    BitsSound(loadable, w, i, Widened(bits, on), TwoByteMode(w.core, on));
  }

  lemma FocusModeSound(loadable: seq<bool>, w: World, i: nat)
    requires Sound(loadable, w) && Within(w, i)
    ensures Sound(loadable, w.(core := FocusMode(ImcOf(w, i), w.core)))
  {
    OneContext(loadable, w, i);
    var core := FocusMode(ImcOf(w, i), w.core);
    assert SetImc(w, i, ImcOf(w, i)).(core := core) == w.(core := core);
    PutSound(loadable, w, i, ImcOf(w, i), core);
  }


  lemma KeyedSound(loadable: seq<bool>, w: World, i: nat, key: Key)
    requires Sound(loadable, w) && Within(w, i) && |loadable| <= MAX_IM_ENTRY
    ensures Sound(loadable, Keyed(loadable, w, i, key))
  {
    KeySound(loadable, w, i, key);
    var w1 := KeyModes(loadable, w, i, key);
    IcStateSound(loadable, w1, i, w1.ics[i].icState.(connected := false));
  }

  lemma KeySound(loadable: seq<bool>, w: World, i: nat, key: Key)
    requires Sound(loadable, w) && Within(w, i) && |loadable| <= MAX_IM_ENTRY
    ensures Sound(loadable, KeyModes(loadable, w, i, key))
  {
    var imc := ImcOf(w, i);
    match key
    case Zhen => ChangeSound(loadable, w, i, if imc.inpState.cinput then -1 else imc.inpNum);
    case TwoBytes => WideModeSound(loadable, w, i, !imc.inpState.wide);
    case Circle(direction) => CircleSound(loadable, w, i, direction);
    case ImNumber(n) => ChangeSound(loadable, w, i, n);
    case ImFocus => FocusModeSound(loadable, w, i);
    case _ =>
  }

  /** A circular change ends on the first slot in its direction that can be changed to, English among them, and binds its module. */
  lemma CircleLands(loadable: seq<bool>, w: World, i: nat, direction: int) returns (k: nat, n: int)
    requires Sound(loadable, w) && Within(w, i) && |loadable| <= MAX_IM_ENTRY && (direction == 1 || direction == -1)
    ensures var imc, imc' := ImcOf(w, i), ImcOf(CircleTo(loadable, w, i, direction), i);
      && 1 <= k <= MAX_IM_ENTRY + 1 && n == Hop(Current(imc), direction, k)
      && (forall m :: 1 <= m < k ==> !IsEnglish(Hop(Current(imc), direction, m)) && !Loadable(loadable, Hop(Current(imc), direction, m)))
      && (if IsEnglish(n) then imc'.imodp == NoModule && !imc'.inpState.cinput
          else Loadable(loadable, n) && imc'.imodp == Slot(n) && imc'.inpState.cinput)
  {
    var imc := ImcOf(w, i);
    OneContext(loadable, w, i);
    CircleEnds(loadable, Current(imc), direction);
    k := Steps(loadable, Current(imc), direction, 1);
    n := Hop(Current(imc), direction, k);
    ChangedSound(loadable, imc, w.core, n);
  }

  datatype Event =
    | Create | Destroy(i: nat)
    | FocusIn(i: nat, started: bool) | FocusOut(i: nat)
    | Trigger(i: nat, key: Key) | Forward(i: nat, key: Key)

  /** One request; one that names no context changes nothing. A client that closes destroys its contexts one by one. */
  ghost function Step(loadable: seq<bool>, w: World, e: Event): World
    requires Sound(loadable, w)
  {
    CreatedSound(loadable, w);
    match e
    case Create => Created(w)
    case Destroy(i) => if i < |w.ics| then Destroyed(w, i) else w
    case FocusIn(i, started) => if Within(w, i) then Focused(loadable, w, i, started) else w
    case FocusOut(i) => if Within(w, i) then Unfocused(w, i) else w
    case Trigger(i, key) => if Within(w, i) then Triggered(loadable, w, i, key) else w
    case Forward(i, key) => if Within(w, i) then Keyed(loadable, w, i, key) else w
  }

  lemma StepSound(loadable: seq<bool>, w: World, e: Event)
    requires Sound(loadable, w) && |loadable| <= MAX_IM_ENTRY
    ensures Sound(loadable, Step(loadable, w, e))
  {
    match e
    case Create => CreatedSound(loadable, w);
    case Destroy(i) => if i < |w.ics| { DestroyedSound(loadable, w, i); }
    case FocusIn(i, started) => if Within(w, i) { FocusedSound(loadable, w, i, started); }
    case FocusOut(i) => if Within(w, i) { UnfocusedSound(loadable, w, i); }
    case Trigger(i, key) => if Within(w, i) { TriggeredSound(loadable, w, i, key); }
    case Forward(i, key) => if Within(w, i) { KeyedSound(loadable, w, i, key); }
  }

  /** The worlds of a run: one after each event. */
  ghost predicate IsRun(loadable: seq<bool>, core: Core, events: seq<Event>, worlds: seq<World>) {
    && |worlds| == |events| + 1 && worlds[0] == World([], [], core)
    && forall k :: 0 <= k < |events| ==> Sound(loadable, worlds[k]) ==> worlds[k + 1] == Step(loadable, worlds[k], events[k])
  }

  /** In every run of requests, and after each of them, the mode bits are sound. */
  lemma {:induction false} RunsAreSound(loadable: seq<bool>, core: Core, events: seq<Event>, worlds: seq<World>, k: nat)
    requires |loadable| <= MAX_IM_ENTRY && CoreSound(core) && IsRun(loadable, core, events, worlds) && k <= |events|
    ensures Sound(loadable, worlds[k])
  {
    if k > 0 {
      RunsAreSound(loadable, core, events, worlds, k - 1);
      StepSound(loadable, worlds[k - 1], events[k - 1]);
    }
  }

  lemma SetTwice(w: World, i: nat, a: Imc, b: Imc)
    requires Within(w, i)
    ensures SetImc(SetImc(w, i, a), i, b) == SetImc(w, i, b) && ImcOf(SetImc(w, i, a), i) == a
  {
  }

  /** The steps of change_IM come to the change. */
  lemma ModuleSteps(loadable: seq<bool>, w: World, i: nat, n: int, w1: World, w2: World, w3: World)
    requires Within(w, i) && Within(w1, i) && Within(w2, i) && !IsEnglish(n) && Loadable(loadable, n)
    requires w1 == if ImcOf(w, i).imodp != NoModule && Slot(n) != ImcOf(w, i).imodp then SetImc(w, i, Left(ImcOf(w, i))) else w
    requires w2 == SetImc(w1, i, ImcOf(w1, i).(imodp := Slot(n), inpNum := n))
    requires w3 == SetBits(w2.(core := Following(w.core, n)), i, CinputOn(ImcOf(w2, i).inpState))
    ensures w3 == ChangeTo(loadable, w, i, n)
  {
    var m2 := ImcOf(w1, i).(imodp := Slot(n), inpNum := n);
    var m3 := m2.(inpState := CinputOn(m2.inpState));
    SetTwice(w, i, Left(ImcOf(w, i)), m2);
    SetTwice(w, i, m2, m3);
    SetTwice(w1, i, m2, m3);
    assert w2 == SetImc(w, i, m2);
    assert w3 == SetImc(w, i, m3).(core := Following(w.core, n));
  }

  lemma EnglishSteps(loadable: seq<bool>, w: World, i: nat, n: int, w1: World, w2: World, w3: World)
    requires Within(w, i) && Within(w1, i) && IsEnglish(n)
    requires w1 == if ImcOf(w, i).imodp != NoModule then SetImc(w, i, Left(ImcOf(w, i))) else w
    requires w2 == SetImc(w1, i, ImcOf(w1, i).(imodp := NoModule)) && w3 == w2.(core := RunImOff(w.core))
    ensures w3 == ChangeTo(loadable, w, i, n)
  {
    var m := ImcOf(w1, i).(imodp := NoModule);
    SetTwice(w, i, Left(ImcOf(w, i)), m);
    assert w2 == SetImc(w, i, m);
  }


  // The handlers at work

  class Server {
    const loadable: seq<bool>
    var imcs: seq<Imc>
    var ics: seq<Ic>
    var mode: Mode
    var imFocus: int
    var defaultIm: int

    ghost function State(): World
      reads this
    {
      World(imcs, ics, Core(mode, imFocus, defaultIm))
    }

    predicate Has(i: nat)
      reads this
    {
      i < |ics| && ics[i].imc < |imcs|
    }

    method PutBits(i: nat, bits: InpState)
      requires Has(i)
      modifies this`imcs
      ensures State() == SetBits(old(State()), i, bits)
    {
      imcs := imcs[ics[i].imc := imcs[ics[i].imc].(inpState := bits)];
    }

    method PutIcState(i: nat, flags: IcState)
      requires Has(i)
      modifies this`ics
      ensures State() == SetIcState(old(State()), i, flags)
    {
      ics := ics[i := ics[i].(icState := flags)];
    }

    /** call_xim_end of a module that is left. */
    method CallXimEnd(i: nat)
      requires Has(i)
      modifies this`imcs
      ensures State() == SetImc(old(State()), i, Left(ImcOf(old(State()), i)))
    {
      PutBits(i, CinputOff(imcs[ics[i].imc].inpState));
    }

    /** call_xim_init of the module that is bound. */
    method CallXimInit(i: nat)
      requires Has(i)
      modifies this`imcs
      ensures State() == SetBits(old(State()), i, CinputOn(ImcOf(old(State()), i).inpState))
    {
      PutBits(i, CinputOn(imcs[ics[i].imc].inpState));
    }

    method Bind(i: nat, imodp: Module, inpNum: int)
      requires Has(i)
      modifies this`imcs
      ensures State() == SetImc(old(State()), i, ImcOf(old(State()), i).(imodp := imodp, inpNum := inpNum))
    {
      imcs := imcs[ics[i].imc := imcs[ics[i].imc].(imodp := imodp, inpNum := inpNum)];
    }

    method Follow(n: int)
      modifies this`mode, this`imFocus, this`defaultIm
      ensures State() == old(State()).(core := Following(old(State()).core, n))
    {
      if mode.focusOn {
        mode := mode.(runIm := true);
        imFocus := n;
      }
      if mode.singleImc {
        defaultIm := n;
      }
    }

    method Unfollow()
      modifies this`mode
      ensures State() == old(State()).(core := RunImOff(old(State()).core))
    {
      if mode.focusOn {
        mode := mode.(runIm := false);
      }
    }

    /** change_IM: to English. */
    method ChangeToEnglish(i: nat, n: int)
      requires Has(i) && IsEnglish(n)
      modifies this`imcs, this`mode
      ensures State() == ChangeTo(loadable, old(State()), i, n)
    {
      ghost var w := State();
      if imcs[ics[i].imc].imodp != NoModule {
        CallXimEnd(i);
      }
      ghost var w1 := State();
      Bind(i, NoModule, imcs[ics[i].imc].inpNum);
      ghost var w2 := State();
      Unfollow();
      EnglishSteps(loadable, w, i, n, w1, w2, State());
    }

    /** change_IM: to a module that was found. */
    method ChangeToModule(i: nat, n: int)
      requires Has(i) && !IsEnglish(n) && Loadable(loadable, n)
      modifies this`imcs, this`mode, this`imFocus, this`defaultIm
      ensures State() == ChangeTo(loadable, old(State()), i, n)
    {
      ghost var w := State();
      if imcs[ics[i].imc].imodp != NoModule && Slot(n) != imcs[ics[i].imc].imodp {
        CallXimEnd(i);
      }
      ghost var w1 := State();
      Bind(i, Slot(n), n);
      ghost var w2 := State();
      Follow(n);
      CallXimInit(i);
      ModuleSteps(loadable, w, i, n, w1, w2, State());
    }

    /** change_IM. */
    method ChangeIM(i: nat, n: int) returns (ok: bool)
      requires Has(i)
      modifies this`imcs, this`mode, this`imFocus, this`defaultIm
      ensures State() == ChangeTo(loadable, old(State()), i, n) && ok == (IsEnglish(n) || Loadable(loadable, n))
    {
      ok := true;
      if n < 0 || n >= MAX_IM_ENTRY {
        ChangeToEnglish(i, n);
      } else if Loadable(loadable, n) {
        ChangeToModule(i, n);
      } else {
        ghost var w := State();
        assert SetImc(w, i, ImcOf(w, i)).(core := w.core) == w;
        ok := false;
      }
    }

    /** circular_change_IM: one slot after another, until one can be changed to. */
    method CircularChangeIM(i: nat, direction: int)
      requires Has(i) && Sound(loadable, State()) && (direction == 1 || direction == -1)
      modifies this`imcs, this`mode, this`imFocus, this`defaultIm
      ensures State() == CircleTo(loadable, old(State()), i, direction)
    {
      ghost var w := State();
      ghost var target := Steps(loadable, Current(ImcOf(w, i)), direction, 1);
      OneContext(loadable, w, i);
      var from := if imcs[ics[i].imc].inpState.cinput then imcs[ics[i].imc].inpNum else MAX_IM_ENTRY;
      CircleEnds(loadable, from, direction);
      var k: nat, j := 0, from;
      while k < MAX_IM_ENTRY + 1
        invariant State() == w && Circling(loadable, from, direction, k, j, target)
      {
        CircleStep(loadable, from, direction, k, k + 1, j, target);
        j := NextSlot(j, direction);
        k := k + 1;
        var ok := ChangeIM(i, j);
        if ok {
          return;
        }
      }
    }

    /** The wide characters on or off, and the run-time focus on them. */
    method Widen(i: nat, on: bool)
      requires Has(i)
      modifies this`imcs, this`mode
      ensures var bits := ImcOf(old(State()), i).inpState;
        State() == SetBits(old(State()), i, Widened(bits, on))
                   .(core := TwoByteMode(old(State()).core, on))
    {
      var bits := imcs[ics[i].imc].inpState;
      PutBits(i, Widened(bits, on));
      if mode.focusOn {
        mode := if on then mode.(runWide := true) else mode.(runWide := false);
      }
    }

    /** delete_IC, without the registry. */
    method IcDelete(i: nat)
      requires i < |ics|
      modifies this`ics
      ensures State() == Destroyed(old(State()), i)
    {
      ics := ics[..i] + ics[i + 1..];
    }

    /** ic_create. */
    method IcCreate()
      requires Sound(loadable, State())
      modifies this`imcs, this`ics
      ensures old(mode).singleImc ==> |old(imcs)| <= 1
      ensures State() == Created(old(State()))
    {
      CreatedSound(loadable, State());
      if !mode.singleImc || imcs == [] {
        imcs := imcs + [Imc(OFF, 0, NoModule)];
      }
      var c := |imcs| - 1;
      imcs := imcs[c := imcs[c].(inpNum := if mode.focusOn then imFocus else defaultIm)];
      ics := ics + [Ic(c, NEW_IC)];
    }

    /** The first focus of a new context. */
    method FirstFocusIn(i: nat, started: bool)
      requires Has(i)
      modifies this`imcs, this`ics, this`mode, this`imFocus, this`defaultIm
      ensures State() == FirstFocus(loadable, old(State()), i, started)
    {
      if mode.runIm || mode.runWide {
        var agreed := ics[i].icState.connected || started;
        PutIcState(i, ics[i].icState.(connected := true));
        if agreed {
          if mode.runIm {
            var _ := ChangeIM(i, imFocus);
          }
          if mode.runWide {
            PutBits(i, imcs[ics[i].imc].inpState.(wide := true, wideFocus := true));
          }
        }
      }
      PutIcState(i, ics[i].icState.(isNew := false));
    }

    /** xim_set_focus_handler. */
    method SetFocusHandler(i: nat, started: bool)
      requires Has(i)
      modifies this`imcs, this`ics, this`mode, this`imFocus, this`defaultIm
      ensures State() == Focused(loadable, old(State()), i, started)
    {
      if ics[i].icState.inFocus {
        return;
      }
      PutBits(i, FocusBits(imcs[ics[i].imc].inpState));
      PutIcState(i, ics[i].icState.(inFocus := true));
      if ics[i].icState.isNew {
        FirstFocusIn(i, started);
      }
      if mode.singleImc {
        if imcs[ics[i].imc].inpState.cinput || imcs[ics[i].imc].inpState.wide {
          PutIcState(i, ics[i].icState.(connected := true));
        } else {
          PutIcState(i, ics[i].icState.(connected := false));
        }
      }
    }

    /** xim_unset_focus_handler. */
    method UnsetFocusHandler(i: nat)
      requires Has(i)
      modifies this`imcs, this`ics
      ensures State() == Unfocused(old(State()), i)
    {
      if !ics[i].icState.inFocus {
        return;
      }
      if !mode.singleImc {
        PutBits(i, UnfocusBits(imcs[ics[i].imc].inpState));
      }
      PutIcState(i, ics[i].icState.(inFocus := false));
    }

    /** xim_trigger_handler. */
    method TriggerHandler(i: nat, key: Key)
      requires Has(i) && Sound(loadable, State()) && (key.Circle? ==> key.direction == 1 || key.direction == -1)
      modifies this`imcs, this`ics, this`mode, this`imFocus, this`defaultIm
      ensures State() == Triggered(loadable, old(State()), i, key)
    {
      IcStateSound(loadable, State(), i, ics[i].icState.(inFocus := true, connected := true));
      PutIcState(i, ics[i].icState.(inFocus := true, connected := true));
      var stays := true;
      match key {
        case Zhen => stays := ChangeIM(i, imcs[ics[i].imc].inpNum);
        case TwoBytes => Widen(i, true);
        case Circle(direction) =>
          CircularChangeIM(i, direction);
          stays := imcs[ics[i].imc].inpState.cinput;
        case ImNumber(n) => stays := ChangeIM(i, n);
        case QPhrase => stays := false;
        case _ =>
      }
      if !stays {
        PutIcState(i, ics[i].icState.(connected := false));
      }
    }

    /** The key that turns the focus mode on and off. */
    method ToggleImFocus(i: nat)
      requires Has(i)
      modifies this`mode, this`imFocus
      ensures State() == old(State()).(core := FocusMode(ImcOf(old(State()), i), old(State()).core))
    {
      if mode.focusOn {
        mode := mode.(focusOn := false, runIm := false, runWide := false);
      } else {
        mode := mode.(focusOn := true);
        if imcs[ics[i].imc].inpState.cinput {
          mode := mode.(runIm := true);
        } else {
          mode := mode.(runWide := true);
        }
        imFocus := imcs[ics[i].imc].inpNum;
      }
    }

    /** forward_keys_handler, and the disconnection by its caller. */
    method ForwardKeysHandler(i: nat, key: Key)
      requires Has(i) && Sound(loadable, State()) && (key.Circle? ==> key.direction == 1 || key.direction == -1)
      modifies this`imcs, this`ics, this`mode, this`imFocus, this`defaultIm
      ensures State() == Keyed(loadable, old(State()), i, key)
    {
      var imc := imcs[ics[i].imc];
      match key {
        case Zhen => var _ := ChangeIM(i, if imc.inpState.cinput then -1 else imc.inpNum);
        case TwoBytes => Widen(i, !imc.inpState.wide);
        case Circle(direction) => CircularChangeIM(i, direction);
        case ImNumber(n) => var _ := ChangeIM(i, n);
        case ImFocus => ToggleImFocus(i);
        case _ =>
      }
      if key != Plain && !(imcs[ics[i].imc].inpState.cinput || imcs[ics[i].imc].inpState.wide) {
        PutIcState(i, ics[i].icState.(connected := false));
      }
    }
  }
}
