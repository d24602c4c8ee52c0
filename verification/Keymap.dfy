/** Key codes and their packing, five to a word (src/Cinput/im_comm/keymap.c). */
module Keymap {

  import opened Division
  import opened Sealed

  const N_KEYS := 47
  const N_KEY_IN_CODE := 5

  /** The key map: a key and its shifted form have one code; 0 is no key. */
  function CodeOf(key: char): (code: nat)
    ensures code <= N_KEYS
  {
    if '1' <= key <= '9' then key as int - '0' as int
    else if 'a' <= key <= 'z' then 11 + (key as int - 'a' as int)
    else if 'A' <= key <= 'Z' then 11 + (key as int - 'A' as int)
    else if key == '0' then 10
    else SignCode(key)
  }

  function SignCode(key: char): (code: nat)
    ensures code <= N_KEYS
  {
    match key
    case '!' => 1
    case '@' => 2
    case '#' => 3
    case '$' => 4
    case '%' => 5
    case '^' => 6
    case '&' => 7
    case '*' => 8
    case '(' => 9
    case ')' => 10
    case '`' => 37 case '~' => 37
    case '-' => 38 case '_' => 38
    case '=' => 39 case '+' => 39
    case '[' => 40 case '{' => 40
    case ']' => 41 case '}' => 41
    case ';' => 42 case ':' => 42
    case '\'' => 43 case '\"' => 43
    case ',' => 44 case '<' => 44
    case '.' => 45 case '>' => 45
    case '/' => 46 case '?' => 46
    case '\\' => 47 case '|' => 47
    case _ => 0
  }

  /** ichmap: the unshifted key of a code, and a blank for 0. */
  function KeyOf(code: nat): char
    requires code <= N_KEYS
  {
    if code == 0 then ' '
    else if code <= 9 then '0' + code as char
    else if code == 10 then '0'
    else if code <= 36 then 'a' + (code - 11) as char
    else Sign(code)
  }

  function Sign(code: nat): char
    requires 37 <= code <= N_KEYS
  {
    match code
    case 37 => '`'
    case 38 => '-'
    case 39 => '='
    case 40 => '['
    case 41 => ']'
    case 42 => ';'
    case 43 => '\''
    case 44 => ','
    case 45 => '.'
    case 46 => '/'
    case 47 => '\\'
  }

  lemma KeyHasCode(code: nat)
    requires code <= N_KEYS
    ensures CodeOf(KeyOf(code)) == code && (KeyOf(code) == ' ' <==> code == 0)
  {
    if code > 36 {
      SignHasCode(code);
    }
  }

  lemma SignHasCode(code: nat)
    requires 37 <= code <= N_KEYS
    ensures CodeOf(Sign(code)) == code && Sign(code) != ' '
  {
  }

  // Five codes of six bits in a word

  /** The weight of the code at place r of a word: a shift by 24 - 6r bits. */
  function Weight(r: nat): nat
    requires r < N_KEY_IN_CODE
  {
    match r
    case 0 => 0x1000000
    case 1 => 0x40000
    case 2 => 0x1000
    case 3 => 0x40
    case 4 => 1
  }

  /** The code at place r of a word: (w & (0x3f << shift)) >> shift. */
  function Field(w: nat, r: nat): nat
    requires r < N_KEY_IN_CODE
  {
    w / Weight(r) % 64
  }

  /** The code of the key at i, 0 behind the last. */
  function CodeAt(keys: string, i: nat): (code: nat)
    ensures code <= N_KEYS
  {
    if i < |keys| then CodeOf(keys[i]) else 0
  }

  /** The first r codes of word j. */
  function PartWord(keys: string, j: nat, r: nat): nat
    requires r <= N_KEY_IN_CODE
  {
    if r == 0 then 0 else PartWord(keys, j, r - 1) + CodeAt(keys, 5 * j + r - 1) * Weight(r - 1)
  }

  function Word(keys: string, j: nat): nat {
    PartWord(keys, j, N_KEY_IN_CODE)
  }

  lemma {:induction false} PartWordRest(keys: string, j: nat, r: nat)
    requires r <= N_KEY_IN_CODE && 5 * j + r >= |keys|
    ensures Word(keys, j) == PartWord(keys, j, r)
    decreases N_KEY_IN_CODE - r
  {
    if r < N_KEY_IN_CODE {
      PartWordRest(keys, j, r + 1);
    }
  }

  lemma WordIs(keys: string, j: nat)
    ensures Word(keys, j) == CodeAt(keys, 5 * j) * 0x1000000 + CodeAt(keys, 5 * j + 1) * 0x40000 + CodeAt(keys, 5 * j + 2) * 0x1000
                           + CodeAt(keys, 5 * j + 3) * 0x40 + CodeAt(keys, 5 * j + 4)
  {
    assert PartWord(keys, j, 1) == CodeAt(keys, 5 * j) * Weight(0);
    assert PartWord(keys, j, 2) == PartWord(keys, j, 1) + CodeAt(keys, 5 * j + 1) * Weight(1);
    assert PartWord(keys, j, 3) == PartWord(keys, j, 2) + CodeAt(keys, 5 * j + 2) * Weight(2);
    assert PartWord(keys, j, 4) == PartWord(keys, j, 3) + CodeAt(keys, 5 * j + 3) * Weight(3);
  }

  /** Each key is found at its place again. */
  lemma FieldOfWord(keys: string, j: nat, r: nat)
    requires r < N_KEY_IN_CODE
    ensures Field(Word(keys, j), r) == CodeAt(keys, 5 * j + r)
  {
    WordIs(keys, j);
    FieldOf(Word(keys, j), CodeAt(keys, 5 * j), CodeAt(keys, 5 * j + 1), CodeAt(keys, 5 * j + 2), CodeAt(keys, 5 * j + 3), CodeAt(keys, 5 * j + 4),
            r);
  }

  lemma FieldOf(w: nat, a: nat, b: nat, c: nat, d: nat, e: nat, r: nat)
    requires a < 64 && b < 64 && c < 64 && d < 64 && e < 64 && r < N_KEY_IN_CODE
    requires w == a * 0x1000000 + b * 0x40000 + c * 0x1000 + d * 0x40 + e
    ensures Field(w, r) == match r case 0 => a case 1 => b case 2 => c case 3 => d case 4 => e
  {
    match r
    case 0 => FieldIs(w, 0, 0, a);
    case 1 => FieldIs(w, 1, a, b);
    case 2 => FieldIs(w, 2, a * 64 + b, c);
    case 3 => FieldIs(w, 3, a * 0x1000 + b * 64 + c, d);
    case 4 => FieldIs(w, 4, a * 0x40000 + b * 0x1000 + c * 64 + d, e);
  }

  lemma FieldIs(w: nat, r: nat, q: nat, code: nat)
    requires r < N_KEY_IN_CODE && code < 64
    requires 0 <= w - (q * 64 + code) * Weight(r) < Weight(r)
    ensures Field(w, r) == code
  {
    DivIs(w, Weight(r), q * 64 + code);
  }

  /** How many words keys2codes writes. */
  function Written(keys: string, size: nat): nat {
    if |keys| / N_KEY_IN_CODE < size then |keys| / N_KEY_IN_CODE + 1 else size
  }

  /** keys2codes at key i: words before the j-th are whole, the j-th has its first keys, the rest is as it was. */
  ghost predicate Packing(s: seq<nat>, was: seq<nat>, keys: string, j: nat, i: nat) {
    0 <= i - 5 * j < N_KEY_IN_CODE && forall k: int :: Asked(k, s) ==>
      && |s| == |was| && j < |s| && s[j] == PartWord(keys, j, i - 5 * j)
      && (forall m :: 0 <= m < j ==> s[m] == Word(keys, m)) && forall m :: j < m < |s| ==> s[m] == was[m]
  }

  /** The first n words are whole, the rest is as it was. */
  predicate PackedTo(s: seq<nat>, was: seq<nat>, keys: string, n: nat) {
    |s| == |was| && n <= |s| && (forall m :: 0 <= m < n ==> s[m] == Word(keys, m)) && forall m :: n <= m < |s| ==> s[m] == was[m]
  }

  lemma KeyPacked(s: seq<nat>, s': seq<nat>, was: seq<nat>, keys: string, j: nat, i: nat)
    requires Packing(s, was, keys, j, i) && i < |keys| && j < |s| && s' == s[j := s[j] + CodeOf(keys[i]) * Weight(i - 5 * j)]
    ensures i - 5 * j < 4 ==> Packing(s', was, keys, j, i + 1)
    ensures i - 5 * j == 4 ==> PackedTo(s', was, keys, j + 1)
    ensures i - 5 * j == 4 && j + 1 < |s| ==> Packing(s'[j + 1 := 0], was, keys, j + 1, i + 1)
  {
    assert Asked(0, s);
    assert PartWord(keys, j, i - 5 * j + 1) == s'[j];
  }

  lemma PackingStarts(was: seq<nat>, keys: string)
    requires was != []
    ensures Packing(was[0 := 0], was, keys, 0, 0)
  {
  }

  lemma Rested(s: seq<nat>, was: seq<nat>, keys: string, j: nat, i: nat)
    requires Packing(s, was, keys, j, i) && 5 * j <= i && i >= |keys|
    ensures PackedTo(s, was, keys, j + 1)
  {
    assert Asked(0, s);
    PartWordRest(keys, j, i - 5 * j);
  }

  /** Key i is in word j. */
  lemma InWord(i: nat, j: nat)
    requires 0 <= i - 5 * j < N_KEY_IN_CODE
    ensures i / N_KEY_IN_CODE == j && i % N_KEY_IN_CODE == i - 5 * j
  {
  }

  lemma WordsFull(keys: nat, size: nat)
    requires 5 * size <= keys
    ensures keys / N_KEY_IN_CODE >= size
  {
  }

  method KeysToCodes(klist: array<nat>, size: nat, keystroke: string) returns (j: nat)
    requires 0 < size <= klist.Length
    modifies klist
    ensures j == if |keystroke| / N_KEY_IN_CODE < size then |keystroke| / N_KEY_IN_CODE else size
    ensures PackedTo(klist[..], old(klist[..]), keystroke, Written(keystroke, size))
  {
    ghost var was := klist[..];
    klist[0] := 0;
    PackingStarts(was, keystroke);
    assert klist[..] == was[0 := 0];
    j := 0;
    var i := 0;
    while i < |keystroke|
      invariant 0 <= i <= |keystroke| && 0 <= j < size && Packing(klist[..], was, keystroke, j, i)
    {
      InWord(i, j);
      ghost var before := klist[..];
      var k := CodeOf(keystroke[i]);
      klist[j] := klist[j] + k * Weight(i - j * N_KEY_IN_CODE);
      KeyPacked(before, klist[..], was, keystroke, j, i);
      if i % N_KEY_IN_CODE == N_KEY_IN_CODE - 1 {
        j := j + 1;
        if j >= size {
          WordsFull(|keystroke|, size);
          return;
        }
        ghost var full := klist[..];
        klist[j] := 0;
        assert klist[..] == full[j := 0];
      }
      i := i + 1;
    }
    InWord(i, j);
    Rested(klist[..], was, keystroke, j, i);
  }

  // Back to keys

  predicate Packs(w: nat) {
    forall r: nat :: r < N_KEY_IN_CODE ==> Field(w, r) <= N_KEYS
  }

  /** The key at place i of a list of words. */
  function KeyAt(klist: seq<nat>, i: nat): char
    requires i < 5 * |klist| && Packs(klist[i / 5])
  {
    KeyOf(Field(klist[i / 5], i % 5))
  }

  /** The first n keys of a list of words. */
  function Keys(klist: seq<nat>, n: nat): (r: string)
    requires n <= 5 * |klist| && forall w :: w in klist ==> Packs(w)
    ensures |r| == n && forall i :: 0 <= i < n ==> r[i] == KeyAt(klist, i)
  {
    seq(n, i requires 0 <= i < n => KeyAt(klist, i))
  }

  /** Where a string has its first blank, or its end. */
  function Blank(s: string, i: nat): (k: nat)
    requires i <= |s|
    ensures i <= k <= |s| && (k < |s| ==> s[k] == ' ')
    ensures forall m :: i <= m < k ==> s[m] != ' '
    decreases |s| - i
  {
    if i == |s| || s[i] == ' ' then i else Blank(s, i + 1)
  }

  /** How many keys codes2keys writes. */
  function Fitting(words: nat, len: nat): nat
    requires len > 0
  {
    if 5 * words < len - 1 then 5 * words else len - 1
  }

  /** codes2keys: as many keys as fit, ended at the first blank; n is where the NUL is. */
  method CodesToKeys(klist: seq<nat>, keystroke: array<char>, len: nat) returns (n: nat)
    requires 0 < len <= keystroke.Length && forall w :: w in klist ==> Packs(w)
    modifies keystroke
    ensures n < len && keystroke[n] == '\0'
    ensures var all := Keys(klist, Fitting(|klist|, len)); keystroke[..n] == all[..Blank(all, 0)]
  {
    n := 0;
    var j := 0;
    while j < |klist|
      invariant 0 <= j <= |klist| && n == Fitting(j, len)
      invariant forall m :: 0 <= m < n ==> keystroke[m] == KeyAt(klist, m)
    {
      var i := 0;
      while i < N_KEY_IN_CODE
        invariant 0 <= i <= N_KEY_IN_CODE && n == if 5 * j + i < len - 1 then 5 * j + i else len - 1
        invariant forall m :: 0 <= m < n ==> keystroke[m] == KeyAt(klist, m)
      {
        if n < len - 1 {
          assert Packs(klist[j]);
          keystroke[n] := KeyOf(Field(klist[j], i));
          n := n + 1;
        } else {
          break;
        }
        i := i + 1;
      }
      j := j + 1;
    }
    keystroke[n] := '\0';
    ghost var all := Keys(klist, n);
    var s := 0;
    while s < n && keystroke[s] != ' '
      invariant 0 <= s <= n && keystroke[n] == '\0' && Blank(all, 0) == Blank(all, s)
      invariant keystroke[..n] == all
    {
      s := s + 1;
    }
    if s < n {
      keystroke[s] := '\0';
      n := s;
    }
  }

  // What packing keeps

  /** The words of a keystroke in a list of n, zero from where it ends. */
  function Packed(keys: string, n: nat): (r: seq<nat>)
    ensures |r| == n && forall j :: 0 <= j < n ==> r[j] == Word(keys, j)
  {
    seq(n, j requires 0 <= j < n => Word(keys, j))
  }

  /** In a list cleared before, keys2codes leaves the packed keystroke. */
  lemma ClearedHoldsPacked(klist: seq<nat>, keys: string, size: nat)
    requires size <= |klist|
    requires forall i :: 0 <= i < Written(keys, size) ==> klist[i] == Word(keys, i)
    requires forall i :: Written(keys, size) <= i < size ==> klist[i] == 0
    ensures klist[..size] == Packed(keys, size)
  {
    forall i | Written(keys, size) <= i < size ensures Word(keys, i) == 0 {
      PartWordRest(keys, i, 0);
    }
  }

  /** The first key without a code, or the end. */
  function Invalid(keys: string, i: nat): (k: nat)
    requires i <= |keys|
    ensures i <= k <= |keys| && (k < |keys| ==> CodeOf(keys[k]) == 0)
    ensures forall m :: i <= m < k ==> CodeOf(keys[m]) != 0
    decreases |keys| - i
  {
    if i == |keys| || CodeOf(keys[i]) == 0 then i else Invalid(keys, i + 1)
  }

  /** A key without its shift. */
  function Unshifted(keys: string): (r: string)
    ensures |r| == |keys| && forall i :: 0 <= i < |keys| ==> r[i] == KeyOf(CodeOf(keys[i]))
  {
    seq(|keys|, i requires 0 <= i < |keys| => KeyOf(CodeOf(keys[i])))
  }

  lemma PackedPacks(keys: string, n: nat)
    ensures forall w :: w in Packed(keys, n) ==> Packs(w)
  {
    forall w | w in Packed(keys, n) ensures Packs(w) {
      var j :| 0 <= j < n && w == Word(keys, j);
      forall r: nat | r < N_KEY_IN_CODE ensures Field(w, r) <= N_KEYS {
        FieldOfWord(keys, j, r);
      }
    }
  }

  lemma PackedKeyAt(keys: string, n: nat, i: nat)
    requires i < 5 * n
    ensures Packs(Packed(keys, n)[i / 5])
    ensures KeyAt(Packed(keys, n), i) == KeyOf(CodeAt(keys, i))
  {
    PackedPacks(keys, n);
    assert Packed(keys, n)[i / 5] in Packed(keys, n);
    FieldOfWord(keys, i / 5, i % 5);
    assert 5 * (i / 5) + i % 5 == i;
  }

  /**
   * Packing and unpacking give the keystroke back without shifts: as much of it as the words and the buffer hold,
   * up to the first key that has no code.
   */
  lemma PackRoundTrip(keys: string, n: nat, len: nat)
    requires len > 0
    ensures forall w :: w in Packed(keys, n) ==> Packs(w)
    ensures
      var fit := Fitting(n, len);
      var all := Keys(Packed(keys, n), fit);
      var kept := if |keys| < fit then keys else keys[..fit];
      all[..Blank(all, 0)] == Unshifted(kept[..Invalid(kept, 0)])
  {
    PackedPacks(keys, n);
    var fit := Fitting(n, len);
    var all := Keys(Packed(keys, n), fit);
    var kept := if |keys| < fit then keys else keys[..fit];
    var k := Invalid(kept, 0);
    KeysOfPacked(keys, n, fit);
    assert forall i :: 0 <= i < |kept| ==> kept[i] == keys[i];
    BlankIs(all, k);
    SameKeys(all[..k], kept[..k]);
  }

  lemma SameKeys(a: string, keys: string)
    requires |a| == |keys| && forall i :: 0 <= i < |a| ==> a[i] == KeyOf(CodeOf(keys[i]))
    ensures a == Unshifted(keys)
  {
  }

  lemma KeysOfPacked(keys: string, n: nat, fit: nat)
    requires fit <= 5 * n && forall w :: w in Packed(keys, n) ==> Packs(w)
    ensures var all := Keys(Packed(keys, n), fit);
      forall i :: 0 <= i < fit ==> all[i] == KeyOf(CodeAt(keys, i)) && (all[i] == ' ' <==> CodeAt(keys, i) == 0)
  {
    var all := Keys(Packed(keys, n), fit);
    forall i | 0 <= i < fit
      ensures all[i] == KeyOf(CodeAt(keys, i)) && (all[i] == ' ' <==> CodeAt(keys, i) == 0)
    {
      PackedKeyAt(keys, n, i);
      KeyHasCode(CodeAt(keys, i));
    }
  }

  lemma BlankIs(s: string, k: nat)
    requires k <= |s| && (k < |s| ==> s[k] == ' ') && forall m :: 0 <= m < k ==> s[m] != ' '
    ensures Blank(s, 0) == k
  {
  }
}
