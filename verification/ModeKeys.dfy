/** What each key and each change of the focus does to a context (src/xim.c). */
module ModeKeys {

  import opened InputModes

  /** Nothing but the modes of the one IM context, the connection of the one context and the server's own modes changes. */
  predicate OnlyHere(w: World, w': World, i: nat) {
    && Within(w, i) && |w'.imcs| == |w.imcs| && |w'.ics| == |w.ics| && w'.ics[i].imc == w.ics[i].imc
    && (forall a :: 0 <= a < |w.imcs| && a != w.ics[i].imc ==> w'.imcs[a] == w.imcs[a])
    && forall k :: 0 <= k < |w.ics| && k != i ==> w'.ics[k] == w.ics[k]
  }

  /** The method of slot n is on, with its focus; the widths are as they were. */
  predicate OnWith(imc: Imc, was: Imc, n: int) {
    imc == Imc(InpState(true, was.inpState.wide, true, was.inpState.wideFocus), n, Slot(n))
  }

  /** English: the method is off, its number remembered; the widths are as they were. */
  predicate OffFrom(imc: Imc, was: Imc) {
    imc == Imc(InpState(false, was.inpState.wide, false, was.inpState.wideFocus), was.inpNum, NoModule)
  }

  /** The server's modes after a change to method n: in focus mode it is the one in force, with one IM context the default. */
  predicate CoreOn(core: Core, was: Core, n: int) {
    && core.mode == was.mode.(runIm := was.mode.focusOn || was.mode.runIm)
    && core.imFocus == (if was.mode.focusOn then n else was.imFocus)
    && core.defaultIm == if was.mode.singleImc then n else was.defaultIm
  }

  lemma ImcSoundAt(loadable: seq<bool>, w: World, i: nat)
    requires Sound(loadable, w) && Within(w, i)
    ensures ImcSound(loadable, ImcOf(w, i)) && CoreSound(w.core)
  {
    OneContext(loadable, w, i);
  }

  /** The key for a method, forwarded: the method of its slot, and nothing if the slot holds none. */
  lemma NumberKey(loadable: seq<bool>, w: World, i: nat, n: int)
    requires Sound(loadable, w) && Within(w, i) && 0 <= n < MAX_IM_ENTRY
    ensures var w' := Keyed(loadable, w, i, ImNumber(n));
      && OnlyHere(w, w', i)
      && (Loadable(loadable, n) ==> OnWith(ImcOf(w', i), ImcOf(w, i), n) && CoreOn(w'.core, w.core, n) && w'.ics == w.ics)
      && (!Loadable(loadable, n) ==> ImcOf(w', i) == ImcOf(w, i) && w'.core == w.core)
  {
    ImcSoundAt(loadable, w, i);
  }

  /** The toggle key turns a method off and keeps its number; turned on it is the method of the number kept. */
  lemma ToggleKey(loadable: seq<bool>, w: World, i: nat)
    requires Sound(loadable, w) && Within(w, i)
    ensures var w' := Keyed(loadable, w, i, Zhen);
      && OnlyHere(w, w', i)
      && (ImcOf(w, i).inpState.cinput ==>
            OffFrom(ImcOf(w', i), ImcOf(w, i))
            && w'.core == if w.core.mode.focusOn then w.core.(mode := w.core.mode.(runIm := false)) else w.core)
      && (!ImcOf(w, i).inpState.cinput && Loadable(loadable, ImcOf(w, i).inpNum) ==>
            OnWith(ImcOf(w', i), ImcOf(w, i), ImcOf(w, i).inpNum) && CoreOn(w'.core, w.core, ImcOf(w, i).inpNum))
      && (!ImcOf(w, i).inpState.cinput && !Loadable(loadable, ImcOf(w, i).inpNum) ==>
            ImcOf(w', i) == ImcOf(w, i) && w'.core == w.core)
  {
    ImcSoundAt(loadable, w, i);
  }

  /** So twice brings the method back. */
  lemma ToggleTwice(loadable: seq<bool>, w: World, i: nat)
    requires Sound(loadable, w) && Within(w, i) && |loadable| <= MAX_IM_ENTRY && ImcOf(w, i).inpState.cinput
    ensures var w' := Keyed(loadable, Keyed(loadable, w, i, Zhen), i, Zhen);
      && OnlyHere(w, w', i) && OnWith(ImcOf(w', i), ImcOf(w, i), ImcOf(w, i).inpNum) && ImcOf(w', i).imodp == ImcOf(w, i).imodp
  {
    var w1 := Keyed(loadable, w, i, Zhen);
    ImcSoundAt(loadable, w, i);
    ToggleKey(loadable, w, i);
    KeyedSound(loadable, w, i, Zhen);
    ToggleKey(loadable, w1, i);
  }

  /** The width key flips the width, with its focus, and the width in force in focus mode; the method stays as it is. */
  lemma WidthKey(loadable: seq<bool>, w: World, i: nat)
    requires Within(w, i)
    ensures var w' := Keyed(loadable, w, i, TwoBytes); var was, on := ImcOf(w, i), !ImcOf(w, i).inpState.wide;
      && OnlyHere(w, w', i)
      && ImcOf(w', i) == was.(inpState := InpState(was.inpState.cinput, on, was.inpState.ximFocus, on))
      && w'.core == if w.core.mode.focusOn then w.core.(mode := w.core.mode.(runWide := on)) else w.core
  {
  }

  /** The focus key turns the focus mode on with the method of the context, or its width in English, and off with nothing in force. */
  lemma FocusKey(loadable: seq<bool>, w: World, i: nat)
    requires Sound(loadable, w) && Within(w, i)
    ensures var w' := Keyed(loadable, w, i, ImFocus); var on, imc := !w.core.mode.focusOn, ImcOf(w, i);
      && OnlyHere(w, w', i) && ImcOf(w', i) == imc
      && w'.core.mode == Mode(on, w.core.mode.singleImc, on && imc.inpState.cinput, on && !imc.inpState.cinput)
      && w'.core.imFocus == (if on then imc.inpNum else w.core.imFocus) && w'.core.defaultIm == w.core.defaultIm
  {
    ImcSoundAt(loadable, w, i);
  }

  /** A function key that leaves neither method nor width disconnects the context; one that leaves a mode, and a plain key, do not. */
  lemma KeyConnection(loadable: seq<bool>, w: World, i: nat, key: Key)
    requires Within(w, i)
    ensures var w' := Keyed(loadable, w, i, key); var bits, was := ImcOf(w', i).inpState, w.ics[i].icState;
      w'.ics[i].icState == if key != Plain && !bits.cinput && !bits.wide then was.(connected := false) else was
  {
  }

  /** A trigger key puts the context in focus.  The toggle key turns its method on; without one in its slot it is not connected. */
  lemma TriggerToggle(loadable: seq<bool>, w: World, i: nat)
    requires Sound(loadable, w) && Within(w, i)
    ensures var w' := Triggered(loadable, w, i, Zhen); var n := ImcOf(w, i).inpNum;
      && OnlyHere(w, w', i) && w'.ics[i].icState == w.ics[i].icState.(inFocus := true, connected := Loadable(loadable, n))
      && (Loadable(loadable, n) ==> OnWith(ImcOf(w', i), ImcOf(w, i), n) && CoreOn(w'.core, w.core, n))
      && (!Loadable(loadable, n) ==> ImcOf(w', i) == ImcOf(w, i) && w'.core == w.core)
  {
    ImcSoundAt(loadable, w, i);
  }

  /** The same for the key of a method. */
  lemma TriggerNumber(loadable: seq<bool>, w: World, i: nat, n: int)
    requires Sound(loadable, w) && Within(w, i) && 0 <= n < MAX_IM_ENTRY
    ensures var w' := Triggered(loadable, w, i, ImNumber(n));
      && OnlyHere(w, w', i) && w'.ics[i].icState == w.ics[i].icState.(inFocus := true, connected := Loadable(loadable, n))
      && (Loadable(loadable, n) ==> OnWith(ImcOf(w', i), ImcOf(w, i), n) && CoreOn(w'.core, w.core, n))
      && (!Loadable(loadable, n) ==> ImcOf(w', i) == ImcOf(w, i) && w'.core == w.core)
  {
    ImcSoundAt(loadable, w, i);
  }

  /** The width key triggers the width, whatever it was; a phrase changes no mode and lets go again. */
  lemma TriggerOthers(loadable: seq<bool>, w: World, i: nat)
    requires Within(w, i)
    ensures var w' := Triggered(loadable, w, i, TwoBytes); var was := ImcOf(w, i);
      && OnlyHere(w, w', i) && w'.ics[i].icState == w.ics[i].icState.(inFocus := true, connected := true)
      && ImcOf(w', i) == was.(inpState := InpState(was.inpState.cinput, true, was.inpState.ximFocus, true))
      && w'.core == if w.core.mode.focusOn then w.core.(mode := w.core.mode.(runWide := true)) else w.core
    ensures var w' := Triggered(loadable, w, i, QPhrase);
      OnlyHere(w, w', i) && w'.imcs == w.imcs && w'.core == w.core && w'.ics[i].icState == w.ics[i].icState.(inFocus := true, connected := false)
  {
  }

  /** The first focus of a new context in focus mode brings the method and the width in force along, when the client takes part. */
  lemma FirstFocusBrings(loadable: seq<bool>, w: World, i: nat)
    requires Sound(loadable, w) && Within(w, i) && w.ics[i].icState == NEW_IC && ImcOf(w, i).imodp == NoModule
    ensures var w' := Focused(loadable, w, i, true); var bits, run, n := ImcOf(w, i).inpState, w.core.mode, w.core.imFocus;
      && OnlyHere(w, w', i) && !w'.ics[i].icState.isNew && w'.ics[i].icState.inFocus
      && ImcOf(w', i).inpState.wide == (bits.wide || run.runWide) && ImcOf(w', i).inpState.wideFocus == ImcOf(w', i).inpState.wide
      && (if run.runIm && Loadable(loadable, n) then ImcOf(w', i).imodp == Slot(n) && ImcOf(w', i).inpNum == n && ImcOf(w', i).inpState.cinput
          else ImcOf(w', i).imodp == NoModule && ImcOf(w', i).inpNum == ImcOf(w, i).inpNum && !ImcOf(w', i).inpState.cinput)
      && w'.ics[i].icState.connected ==
           if run.singleImc then ImcOf(w', i).inpState.cinput || ImcOf(w', i).inpState.wide else run.runIm || run.runWide
  {
    ImcSoundAt(loadable, w, i);
  }

  /** Later the focus goes with the modes and comes back with them: the method and the widths are never touched. */
  lemma FocusAndBack(loadable: seq<bool>, w: World, i: nat, started: bool)
    requires Sound(loadable, w) && Within(w, i) && w.ics[i].icState.inFocus && !w.ics[i].icState.isNew && !w.core.mode.singleImc
    requires ImcOf(w, i).inpState.ximFocus == ImcOf(w, i).inpState.cinput && ImcOf(w, i).inpState.wideFocus == ImcOf(w, i).inpState.wide
    ensures var w' := Unfocused(w, i); var was := ImcOf(w, i);
      && OnlyHere(w, w', i) && w'.core == w.core && w'.ics[i].icState == w.ics[i].icState.(inFocus := false)
      && ImcOf(w', i) == was.(inpState := InpState(was.inpState.cinput, was.inpState.wide, false, false))
      && Focused(loadable, w', i, started) == w
  {
    var w' := Unfocused(w, i);
    var w2 := Focused(loadable, w', i, started);
    assert ImcOf(w2, i) == ImcOf(w, i);
    assert w2.imcs == w.imcs;
    assert w2.ics == w.ics;
  }

  /** A new context is in English and narrow, not connected and not in focus, with the number of the method to use; with one IM context
      for all it shares that one, which takes the number and keeps its modes. */
  lemma NewContext(loadable: seq<bool>, w: World)
    requires Sound(loadable, w) && (w.core.mode.singleImc ==> |w.imcs| <= 1)
    ensures var w' := Created(w); var k, n := |w.ics|, if w.core.mode.focusOn then w.core.imFocus else w.core.defaultIm;
      && |w'.ics| == k + 1 && w'.ics[..k] == w.ics && w'.ics[k].icState == IcState(true, false, false) && w'.core == w.core
      && Within(w', k) && w'.ics[k].imc == |w'.imcs| - 1
      && (if w.core.mode.singleImc && w.imcs != [] then w'.imcs == [w.imcs[0].(inpNum := n)]
          else w'.imcs == w.imcs + [Imc(InpState(false, false, false, false), n, NoModule)])
  {
    var w' := Created(w);
    assert w'.ics[..|w.ics|] == w.ics;
  }

  /** The slot so many steps round the circle: the slots in their order, English behind the last. */
  function Round(from: int, direction: int, k: int): int {
    var s := if direction == 1 then from + k else from - k;
    if s < 0 then s + (MAX_IM_ENTRY + 1) else if s > MAX_IM_ENTRY then s - (MAX_IM_ENTRY + 1) else s
  }

  lemma RoundIs(from: int, direction: int, k: nat)
    requires 0 <= from <= MAX_IM_ENTRY && k <= MAX_IM_ENTRY + 1 && (direction == 1 || direction == -1)
    ensures Hop(from, direction, k) == Round(from, direction, k)
  {
    if direction == 1 {
      HopsForward(from, k);
    } else {
      HopsBackward(from, k);
    }
  }

  /** Of the slots behind the present one, English counting as the present one of a context in English, the first that can be changed to. */
  lemma FirstRound(loadable: seq<bool>, from: int, direction: int) returns (k: nat)
    requires 0 <= from <= MAX_IM_ENTRY && (direction == 1 || direction == -1)
    ensures 1 <= k <= MAX_IM_ENTRY + 1 && k == Steps(loadable, from, direction, 1)
    ensures forall m :: 1 <= m < k ==> Round(from, direction, m) < MAX_IM_ENTRY && !Loadable(loadable, Round(from, direction, m))
    ensures var n := Round(from, direction, k); n == Hop(from, direction, k) && 0 <= n && (n == MAX_IM_ENTRY || Loadable(loadable, n))
  {
    k := Steps(loadable, from, direction, 1);
    CircleEnds(loadable, from, direction);
    RoundIs(from, direction, k);
    forall m: nat | 1 <= m < k
      ensures Round(from, direction, m) < MAX_IM_ENTRY && !Loadable(loadable, Round(from, direction, m))
    {
      RoundIs(from, direction, m);
    }
  }

  /** A circular key turns to it. */
  lemma CircleKey(loadable: seq<bool>, w: World, i: nat, direction: int) returns (k: nat, n: int)
    requires Sound(loadable, w) && Within(w, i) && |loadable| <= MAX_IM_ENTRY && (direction == 1 || direction == -1)
    ensures var w', was := Keyed(loadable, w, i, Circle(direction)), ImcOf(w, i);
      var from := if was.inpState.cinput then was.inpNum else MAX_IM_ENTRY;
      && OnlyHere(w, w', i) && 1 <= k <= MAX_IM_ENTRY + 1 && n == Round(from, direction, k)
      && (forall m :: 1 <= m < k ==> Round(from, direction, m) < MAX_IM_ENTRY && !Loadable(loadable, Round(from, direction, m)))
      && if n == MAX_IM_ENTRY then OffFrom(ImcOf(w', i), was)
         else Loadable(loadable, n) && OnWith(ImcOf(w', i), was, n) && CoreOn(w'.core, w.core, n)
  {
    ImcSoundAt(loadable, w, i);
    k := FirstRound(loadable, Current(ImcOf(w, i)), direction);
    n := Round(Current(ImcOf(w, i)), direction, k);
    CircleTurns(loadable, w, i, direction, k, n);
  }

  lemma CircleTurns(loadable: seq<bool>, w: World, i: nat, direction: int, k: nat, n: int)
    requires Within(w, i) && ImcSound(loadable, ImcOf(w, i)) && |loadable| <= MAX_IM_ENTRY && 0 <= n
    requires k == Steps(loadable, Current(ImcOf(w, i)), direction, 1) && n == Hop(Current(ImcOf(w, i)), direction, k)
    requires n == MAX_IM_ENTRY || Loadable(loadable, n)
    ensures var w', was := Keyed(loadable, w, i, Circle(direction)), ImcOf(w, i);
      && OnlyHere(w, w', i)
      && if n == MAX_IM_ENTRY then OffFrom(ImcOf(w', i), was)
         else OnWith(ImcOf(w', i), was, n) && CoreOn(w'.core, w.core, n)
  {
    assert CircleTo(loadable, w, i, direction) == ChangeTo(loadable, w, i, n);
  }
}
