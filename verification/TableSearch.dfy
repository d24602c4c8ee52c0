/** The sorted code table and its search (src/Cinput/gen_inp/gen_inp.c). */
module TableSearch {

  import opened Keymap

  /** The words of entry idx: one from each column. */
  function Row(ic: seq<seq<nat>>, mode: nat, idx: nat): (r: seq<nat>)
    requires Columns(ic, mode, idx + 1)
    ensures |r| == mode && forall i :: 0 <= i < mode ==> r[i] == ic[i][idx]
  {
    seq(mode, i requires 0 <= i < mode => ic[i][idx])
  }

  predicate Columns(ic: seq<seq<nat>>, mode: nat, size: nat) {
    mode <= |ic| && forall i :: 0 <= i < mode ==> |ic[i]| >= size
  }

  /** The first difference decides, later when there is none. */
  function Decide(x: nat, y: nat, later: int): int {
    if x > y then 1 else if x < y then -1 else later
  }

  /** The comparison of two lists of words from word i on. */
  function CmpWords(x: seq<nat>, y: seq<nat>, i: nat): (r: int)
    requires |x| == |y| && i <= |x|
    ensures -1 <= r <= 1
    decreases |x| - i
  {
    if i == |x| then 0 else Decide(x[i], y[i], CmpWords(x, y, i + 1))
  }

  method CmpIcvalue(ic: seq<seq<nat>>, idx: nat, icode: seq<nat>, mode: nat) returns (r: int)
    requires Columns(ic, mode, idx + 1) && |icode| == mode
    ensures r == CmpWords(Row(ic, mode, idx), icode, 0)
  {
    var i := 0;
    while i < mode
      invariant 0 <= i <= mode && CmpWords(Row(ic, mode, idx), icode, 0) == CmpWords(Row(ic, mode, idx), icode, i)
    {
      if ic[i][idx] > icode[i] {
        return 1;
      } else if ic[i][idx] < icode[i] {
        return -1;
      }
      i := i + 1;
    }
    return 0;
  }

  lemma {:induction false} CmpTransitive(x: seq<nat>, y: seq<nat>, z: seq<nat>, i: nat)
    requires |x| == |y| == |z| && i <= |x| && CmpWords(x, y, i) <= 0 && CmpWords(y, z, i) <= 0
    ensures CmpWords(x, z, i) <= 0
    ensures CmpWords(x, y, i) < 0 || CmpWords(y, z, i) < 0 ==> CmpWords(x, z, i) < 0
    decreases |x| - i
  {
    if i < |x| && x[i] == y[i] == z[i] {
      CmpTransitive(x, y, z, i + 1);
    }
  }

  lemma {:induction false} CmpReflexive(x: seq<nat>, i: nat)
    requires i <= |x|
    ensures CmpWords(x, x, i) == 0
    decreases |x| - i
  {
    if i < |x| {
      CmpReflexive(x, i + 1);
    }
  }

  lemma {:induction false} CmpZero(x: seq<nat>, y: seq<nat>, i: nat)
    requires |x| == |y| && i <= |x| && CmpWords(x, y, i) == 0
    ensures x[i..] == y[i..]
    decreases |x| - i
  {
    if i < |x| {
      CmpZero(x, y, i + 1);
      assert x[i..] == [x[i]] + x[i + 1..] && y[i..] == [y[i]] + y[i + 1..];
    }
  }

  predicate Sorted(ic: seq<seq<nat>>, mode: nat, size: nat)
    requires Columns(ic, mode, size)
  {
    forall a, b :: 0 <= a <= b < size ==> CmpWords(Row(ic, mode, a), Row(ic, mode, b), 0) <= 0
  }

  /** Where icode belongs in the table. */
  ghost predicate Splits(ic: seq<seq<nat>>, mode: nat, size: nat, icode: seq<nat>, at: nat)
    requires Columns(ic, mode, size) && |icode| == mode && at <= size
  {
    && (forall k :: 0 <= k < at ==> CmpWords(Row(ic, mode, k), icode, 0) < 0)
    && (forall k :: at <= k < size ==> CmpWords(Row(ic, mode, k), icode, 0) >= 0)
  }

  lemma BelowEarlier(ic: seq<seq<nat>>, mode: nat, size: nat, icode: seq<nat>, k: nat)
    requires Columns(ic, mode, size) && |icode| == mode && Sorted(ic, mode, size) && k < size
    requires CmpWords(Row(ic, mode, k), icode, 0) < 0
    ensures forall m :: 0 <= m <= k ==> CmpWords(Row(ic, mode, m), icode, 0) < 0
  {
    forall m | 0 <= m <= k ensures CmpWords(Row(ic, mode, m), icode, 0) < 0 {
      CmpTransitive(Row(ic, mode, m), Row(ic, mode, k), icode, 0);
    }
  }

  lemma {:induction false} CmpFlip(x: seq<nat>, y: seq<nat>, i: nat)
    requires |x| == |y| && i <= |x|
    ensures CmpWords(y, x, i) == -CmpWords(x, y, i)
    decreases |x| - i
  {
    if i < |x| {
      CmpFlip(x, y, i + 1);
    }
  }

  lemma AboveLater(ic: seq<seq<nat>>, mode: nat, size: nat, icode: seq<nat>, k: nat)
    requires Columns(ic, mode, size) && |icode| == mode && Sorted(ic, mode, size) && k < size
    requires CmpWords(Row(ic, mode, k), icode, 0) >= 0
    ensures forall m :: k <= m < size ==> CmpWords(Row(ic, mode, m), icode, 0) >= CmpWords(Row(ic, mode, k), icode, 0)
  {
    CmpFlip(Row(ic, mode, k), icode, 0);
    forall m | k <= m < size ensures CmpWords(Row(ic, mode, m), icode, 0) >= CmpWords(Row(ic, mode, k), icode, 0) {
      CmpTransitive(icode, Row(ic, mode, k), Row(ic, mode, m), 0);
      CmpFlip(Row(ic, mode, m), icode, 0);
    }
  }

  /** From an entry with this code back to the first. */
  method FirstEqual(ic: seq<seq<nat>>, icode: seq<nat>, size: nat, mode: nat, found: nat) returns (middle: nat)
    requires Columns(ic, mode, size) && |icode| == mode && Sorted(ic, mode, size)
    requires found < size && CmpWords(Row(ic, mode, found), icode, 0) == 0
    ensures middle < size && Splits(ic, mode, size, icode, middle) && Row(ic, mode, middle) == icode
  {
    middle := found;
    while middle > 0
      invariant 0 <= middle < size && CmpWords(Row(ic, mode, middle), icode, 0) == 0
    {
      var before := CmpIcvalue(ic, middle - 1, icode, mode);
      if before != 0 {
        CmpTransitive(Row(ic, mode, middle - 1), Row(ic, mode, middle), icode, 0);
        BelowEarlier(ic, mode, size, icode, middle - 1);
        break;
      }
      middle := middle - 1;
    }
    AboveLater(ic, mode, size, icode, middle);
    CmpZero(Row(ic, mode, middle), icode, 0);
    assert Row(ic, mode, middle)[0..] == Row(ic, mode, middle) && icode[0..] == icode;
  }

  /** The first entry with this code; without one, where it belongs if wild is wanted, and -1 otherwise. */
  method BsearchChar(ic: seq<seq<nat>>, icode: seq<nat>, size: nat, mode: nat, wild: bool) returns (r: int)
    requires 0 < size && Columns(ic, mode, size) && |icode| == mode && Sorted(ic, mode, size)
    ensures -1 <= r <= size
    ensures r >= 0 ==> Splits(ic, mode, size, icode, r)
    ensures 0 <= r && !wild ==> r < size && Row(ic, mode, r) == icode
    ensures r < 0 ==> !wild && forall k :: 0 <= k < size ==> Row(ic, mode, k) != icode
  {
    var head, end := 0, size;
    var middle := size / 2;
    var ret := CmpIcvalue(ic, middle, icode, mode);
    while ret != 0
      invariant 0 <= head <= middle < end <= size
      invariant ret == CmpWords(Row(ic, mode, middle), icode, 0)
      invariant forall k :: 0 <= k < head ==> CmpWords(Row(ic, mode, k), icode, 0) < 0
      invariant forall k :: end <= k < size ==> CmpWords(Row(ic, mode, k), icode, 0) > 0
      decreases end - head
    {
      if ret > 0 {
        AboveLater(ic, mode, size, icode, middle);
        end := middle;
      } else {
        BelowEarlier(ic, mode, size, icode, middle);
        head := middle + 1;
      }
      middle := (end + head) / 2;
      if middle == head && middle == end {
        break;
      }
      ret := CmpIcvalue(ic, middle, icode, mode);
    }
    if ret == 0 {
      r := FirstEqual(ic, icode, size, mode, middle);
    } else {
      CmpReflexive(icode, 0);
      r := if wild then middle else -1;
    }
  }

  // Words in order, keystrokes in order

  /** Keystrokes in the order of their codes, the shorter first. */
  function CmpKeys(a: string, b: string, i: nat): int
    decreases |a| - i
  {
    if i >= |a| then (if i >= |b| then 0 else -1)
    else if i >= |b| then 1
    else Decide(CodeOf(a[i]), CodeOf(b[i]), CmpKeys(a, b, i + 1))
  }

  predicate AllKeys(s: string) {
    forall i :: 0 <= i < |s| ==> CodeOf(s[i]) != 0
  }

  /** The comparison of the codes up to place m, with zeros behind the last key. */
  function CmpCodes(a: string, b: string, i: nat, m: nat): int
    decreases m - i
  {
    if i >= m then 0 else Decide(CodeAt(a, i), CodeAt(b, i), CmpCodes(a, b, i + 1, m))
  }

  lemma {:induction false} CodesAreKeys(a: string, b: string, i: nat, m: nat)
    requires AllKeys(a) && AllKeys(b) && |a| <= m && |b| <= m
    ensures CmpCodes(a, b, i, m) == CmpKeys(a, b, i)
    decreases m - i
  {
    if i < m {
      CodesAreKeys(a, b, i + 1, m);
    }
  }

  lemma {:induction false} WordsAreCodes(a: string, b: string, n: nat, j: nat)
    requires j <= n
    ensures CmpWords(Packed(a, n), Packed(b, n), j) == CmpCodes(a, b, 5 * j, 5 * n)
    decreases n - j
  {
    if j < n {
      WordsAreCodes(a, b, n, j + 1);
      PackedStep(a, b, n, j, 5 * j, 5 * n);
    }
  }

  /** One word more, five codes more. */
  lemma PackedStep(a: string, b: string, n: nat, j: nat, i: nat, m: nat)
    requires j < n && i == 5 * j && m == 5 * n && CmpWords(Packed(a, n), Packed(b, n), j + 1) == CmpCodes(a, b, i + 5, m)
    ensures CmpWords(Packed(a, n), Packed(b, n), j) == CmpCodes(a, b, i, m)
  {
    WordStep(a, b, j, i, m);
  }

  lemma WordStep(a: string, b: string, j: nat, i: nat, m: nat)
    requires i == 5 * j && i + 5 <= m
    ensures CmpCodes(a, b, i, m) == Decide(Word(a, j), Word(b, j), CmpCodes(a, b, i + 5, m))
  {
    WordIs(a, j);
    WordIs(b, j);
    FiveCodes(a, b, i, m);
    WordDecides(CodeAt(a, i), CodeAt(a, i + 1), CodeAt(a, i + 2), CodeAt(a, i + 3), CodeAt(a, i + 4),
                CodeAt(b, i), CodeAt(b, i + 1), CodeAt(b, i + 2), CodeAt(b, i + 3), CodeAt(b, i + 4),
                Word(a, j), Word(b, j), CmpCodes(a, b, i + 5, m));
  }

  lemma FiveCodes(a: string, b: string, i: nat, m: nat)
    requires i + 5 <= m
    ensures CmpCodes(a, b, i, m) ==
      Decide(CodeAt(a, i), CodeAt(b, i), Decide(CodeAt(a, i + 1), CodeAt(b, i + 1), Decide(CodeAt(a, i + 2), CodeAt(b, i + 2),
        Decide(CodeAt(a, i + 3), CodeAt(b, i + 3), Decide(CodeAt(a, i + 4), CodeAt(b, i + 4), CmpCodes(a, b, i + 5, m))))))
  {
    var first, second := CmpCodes(a, b, i + 1, m), CmpCodes(a, b, i + 2, m);
    var third, fourth := CmpCodes(a, b, i + 3, m), CmpCodes(a, b, i + 4, m);
  }

  /** Comparing words is comparing their five codes in turn. */
  lemma WordDecides(a0: nat, a1: nat, a2: nat, a3: nat, a4: nat, b0: nat, b1: nat, b2: nat, b3: nat, b4: nat, v: nat, w: nat, later: int)
    requires a1 < 64 && a2 < 64 && a3 < 64 && a4 < 64 && b1 < 64 && b2 < 64 && b3 < 64 && b4 < 64
    requires v == a0 * 0x1000000 + a1 * 0x40000 + a2 * 0x1000 + a3 * 0x40 + a4
    requires w == b0 * 0x1000000 + b1 * 0x40000 + b2 * 0x1000 + b3 * 0x40 + b4
    ensures Decide(v, w, later) == Decide(a0, b0, Decide(a1, b1, Decide(a2, b2, Decide(a3, b3, Decide(a4, b4, later)))))
  {
  }

  /** The order of the table is the order of the keystrokes. */
  lemma PackingKeepsOrder(a: string, b: string, n: nat)
    requires AllKeys(a) && AllKeys(b) && |a| <= 5 * n && |b| <= 5 * n
    ensures CmpWords(Packed(a, n), Packed(b, n), 0) == CmpKeys(a, b, 0)
  {
    WordsAreCodes(a, b, n, 0);
    CodesAreKeys(a, b, 0, 5 * n);
  }

  lemma {:induction false} SameCodes(a: string, b: string, i: nat)
    requires CmpKeys(a, b, i) == 0 && i <= |a| && i <= |b|
    ensures |a| == |b| && forall k :: i <= k < |a| ==> CodeOf(a[k]) == CodeOf(b[k])
    decreases |a| - i
  {
    if i < |a| {
      SameCodes(a, b, i + 1);
    }
  }

  /** What comes before a keystroke in the table does not start with it, even when only its first keys are packed. */
  lemma {:induction false} PrefixNotAfter(p: string, b: string, n: nat, i: nat)
    requires i <= |p| <= |b| && forall k :: 0 <= k < |p| ==> b[k] == p[k]
    ensures CmpCodes(b, p, i, 5 * n) >= 0
    decreases |p| - i
  {
    if i < |p| {
      PrefixNotAfter(p, b, n, i + 1);
    } else {
      NothingNotAfter(p, b, n, i);
    }
  }

  lemma {:induction false} NothingNotAfter(p: string, b: string, n: nat, i: nat)
    requires i >= |p|
    ensures CmpCodes(b, p, i, 5 * n) >= 0
    decreases 5 * n - i
  {
    if i < 5 * n {
      NothingNotAfter(p, b, n, i + 1);
    }
  }
}
