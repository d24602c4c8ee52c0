/** The candidate pages of the table input method (src/Cinput/gen_inp/gen_inp.c). */
module Paging {

  import opened Sealed
  import opened Strings
  import opened Keymap
  import opened TableSearch
  import opened Wildcard

  const MAX_ICODE_MODE := 4

  /** A code table: columns of words, the character of each entry, and the longest keystroke. */
  datatype Table = Table(ic: seq<seq<nat>>, icidx: seq<int>, mode: nat, size: nat, maxKeys: nat)

  /** The table holds the keystrokes keys, packed and in order. */
  ghost predicate Holds(t: Table, keys: seq<string>) {
    && 0 < t.size == |keys| && t.size <= |t.icidx| && t.mode <= MAX_ICODE_MODE
    && Columns(t.ic, t.mode, t.size) && Sorted(t.ic, t.mode, t.size)
    && forall k :: 0 <= k < t.size ==> Entry(t, keys[k], k)
  }

  ghost predicate Entry(t: Table, key: string, k: nat)
    requires Columns(t.ic, t.mode, t.size) && k < t.size
  {
    && AllKeys(key) && key == Unshifted(key) && |key| <= 5 * t.mode && |key| <= t.maxKeys
    && Row(t.ic, t.mode, k) == Packed(key, t.mode)
  }

  predicate Matches(pattern: string, key: string) {
    Compare(Tokens(pattern, 0), key, 0) == 0
  }

  /** Whether an entry is wanted: by the wildcard pattern, or by having the code of the keystroke. */
  predicate Wanted(t: Table, keys: seq<string>, wild: bool, keystroke: string, k: nat)
    requires Columns(t.ic, t.mode, t.size) && t.size == |keys| && k < t.size
  {
    if wild then Matches(keystroke, keys[k]) else Row(t.ic, t.mode, k) == Packed(keystroke, t.mode)
  }

  /** The wanted entries before n, ascending. */
  function Found(t: Table, keys: seq<string>, wild: bool, keystroke: string, n: nat): (r: seq<nat>)
    requires Columns(t.ic, t.mode, t.size) && t.size == |keys| && n <= t.size
  {
    if n == 0 then []
    else
      var before := Found(t, keys, wild, keystroke, n - 1);
      if Wanted(t, keys, wild, keystroke, n - 1) then before + [n - 1] else before
  }

  lemma {:induction false} FoundAt(t: Table, keys: seq<string>, wild: bool, keystroke: string, n: nat, i: nat)
    requires Columns(t.ic, t.mode, t.size) && t.size == |keys| && n <= t.size && i < |Found(t, keys, wild, keystroke, n)|
    ensures Found(t, keys, wild, keystroke, n)[i] < n
    ensures Wanted(t, keys, wild, keystroke, Found(t, keys, wild, keystroke, n)[i])
  {
    if i < |Found(t, keys, wild, keystroke, n - 1)| {
      FoundAt(t, keys, wild, keystroke, n - 1, i);
    }
  }

  lemma {:induction false} FoundAscends(t: Table, keys: seq<string>, wild: bool, keystroke: string, n: nat, i: nat, j: nat)
    requires Columns(t.ic, t.mode, t.size) && t.size == |keys| && n <= t.size && i < j < |Found(t, keys, wild, keystroke, n)|
    ensures Found(t, keys, wild, keystroke, n)[i] < Found(t, keys, wild, keystroke, n)[j]
  {
    if j < |Found(t, keys, wild, keystroke, n - 1)| {
      FoundAscends(t, keys, wild, keystroke, n - 1, i, j);
    } else {
      FoundAt(t, keys, wild, keystroke, n - 1, i);
    }
  }

  lemma {:induction false} FoundGrows(t: Table, keys: seq<string>, wild: bool, keystroke: string, n: nat, m: nat)
    requires Columns(t.ic, t.mode, t.size) && t.size == |keys| && n <= m <= t.size
    ensures var a, b := Found(t, keys, wild, keystroke, n), Found(t, keys, wild, keystroke, m);
      |a| <= |b| && b[..|a|] == a && forall i :: |a| <= i < |b| ==> b[i] >= n
  {
    if n < m {
      FoundGrows(t, keys, wild, keystroke, n, m - 1);
    }
  }

  /** Every wanted entry is found. */
  lemma {:induction false} FoundAll(t: Table, keys: seq<string>, wild: bool, keystroke: string, n: nat, k: nat)
    requires Columns(t.ic, t.mode, t.size) && t.size == |keys| && k < n <= t.size && Wanted(t, keys, wild, keystroke, k)
    ensures k in Found(t, keys, wild, keystroke, n)
  {
    if k < n - 1 {
      FoundAll(t, keys, wild, keystroke, n - 1, k);
    }
  }

  lemma {:induction false} FoundNone(t: Table, keys: seq<string>, wild: bool, keystroke: string, n: nat)
    requires Columns(t.ic, t.mode, t.size) && t.size == |keys| && n <= t.size
    requires forall k :: 0 <= k < n ==> !Wanted(t, keys, wild, keystroke, k)
    ensures Found(t, keys, wild, keystroke, n) == []
  {
    if n > 0 {
      FoundNone(t, keys, wild, keystroke, n - 1);
    }
  }

  /** The characters of some entries. */
  function Chars(t: Table, entries: seq<nat>): (r: seq<int>)
    requires forall k :: k in entries ==> k < |t.icidx|
    ensures |r| == |entries| && forall i :: 0 <= i < |r| ==> entries[i] in entries && r[i] == t.icidx[entries[i]]
  {
    seq(|entries|, i requires 0 <= i < |entries| => assert entries[i] in entries; t.icidx[entries[i]])
  }

  function Reversed<T>(s: seq<T>): (r: seq<T>)
    ensures |r| == |s| && forall i :: 0 <= i < |s| ==> r[i] == s[|s| - 1 - i]
  {
    seq(|s|, i requires 0 <= i < |s| => s[|s| - 1 - i])
  }

  function Min(a: int, b: int): int {
    if a < b then a else b
  }

  function Max(a: int, b: int): int {
    if a > b then a else b
  }

  // What the literal prefix of a pattern says

  /** A match starts with what the pattern has before its first wildcard. */
  lemma MatchHasPrefix(pattern: string, key: string)
    requires SkipPlain(pattern, 0) < TOK_SIZE && Matches(pattern, key)
    ensures At(pattern[..SkipPlain(pattern, 0)], key, 0)
  {
    var q := SkipPlain(pattern, 0);
    if q > 0 {
      assert Tokens(pattern, 0).head == Lit(pattern[0..q]);
    }
  }

  /** The words keys2codes makes of the first ten keys. */
  lemma TenKeys(prefix: string, klist: seq<nat>, mode: nat)
    requires mode <= |klist| == MAX_ICODE_MODE
    requires forall i :: 0 <= i < Written(prefix, 2) ==> klist[i] == Word(prefix, i)
    requires forall i :: Written(prefix, 2) <= i < MAX_ICODE_MODE ==> klist[i] == 0
    ensures klist[..mode] == Packed(prefix[..Min(10, |prefix|)], mode)
  {
    var p := prefix[..Min(10, |prefix|)];
    forall i | 0 <= i < mode ensures klist[i] == Word(p, i) {
      if i < Written(prefix, 2) {
        WordIs(prefix, i);
        WordIs(p, i);
      } else {
        PartWordRest(p, i, 0);
      }
    }
  }

  /** No match stands before the place of the literal prefix. */
  lemma NoMatchBefore(t: Table, keys: seq<string>, pattern: string, at: nat)
    requires Holds(t, keys) && SkipPlain(pattern, 0) < TOK_SIZE && at <= t.size
    requires var p := pattern[..SkipPlain(pattern, 0)]; Splits(t.ic, t.mode, t.size, Packed(p[..Min(10, |p|)], t.mode), at)
    ensures Found(t, keys, true, pattern, at) == []
  {
    var p := pattern[..SkipPlain(pattern, 0)];
    var p10 := p[..Min(10, |p|)];
    forall k | 0 <= k < at ensures !Wanted(t, keys, true, pattern, k) {
      assert Entry(t, keys[k], k);
      if Matches(pattern, keys[k]) {
        MatchHasPrefix(pattern, keys[k]);
        WordsAreCodes(keys[k], p10, t.mode, 0);
        PrefixNotAfter(p10, keys[k], t.mode, 0);
      }
    }
    FoundNone(t, keys, true, pattern, at);
  }

  /** Unpacking an entry gives its keystroke. */
  lemma EntryUnpacks(t: Table, key: string, k: nat)
    requires Columns(t.ic, t.mode, t.size) && k < t.size && Entry(t, key, k)
    ensures forall w :: w in Row(t.ic, t.mode, k) ==> Packs(w)
    ensures var all := Keys(Row(t.ic, t.mode, k), Fitting(t.mode, t.maxKeys + 1)); all[..Blank(all, 0)] == key
  {
    PackRoundTrip(key, t.mode, t.maxKeys + 1);
    var fit := Fitting(t.mode, t.maxKeys + 1);
    assert |key| <= fit;
    assert (if |key| < fit then key else key[..fit]) == key;
    assert Invalid(key, 0) == |key|;
    assert key[..|key|] == key;
  }

  /** The test of one entry: its words back to keys, and those against the pattern. */
  method TestEntry(t: Table, ghost keys: seq<string>, pattern: string, idx: nat) returns (b: bool)
    requires Holds(t, keys) && idx < t.size
    ensures b == Matches(pattern, keys[idx])
  {
    var ks := UnpackEntry(t, keys, idx);
    var ret := StrcmpWild(pattern, ks);
    b := ret == 0;
  }

  method UnpackEntry(t: Table, ghost keys: seq<string>, idx: nat) returns (ks: string)
    requires Holds(t, keys) && idx < t.size
    ensures ks == keys[idx]
  {
    assert Entry(t, keys[idx], idx);
    EntryUnpacks(t, keys[idx], idx);
    var buf := new char[t.maxKeys + 1](_ => ' ');
    var n := CodesToKeys(Row(t.ic, t.mode, idx), buf, t.maxKeys + 1);
    ks := buf[..n];
  }

  /** The first n of found from start on. */
  function PickedUp(found: seq<nat>, start: nat, n: nat): seq<nat>
    requires start <= |found|
  {
    found[start..Min(|found|, start + n)]
  }

  /** The last n of found from the place down on, in the order a scan downwards meets them. */
  function PickedDown(found: seq<nat>, down: nat, n: nat): seq<nat>
    requires down <= |found|
  {
    Reversed(found[Max(down, |found| - n)..])
  }

  /** The last entry picked, or where the scan started. */
  function LastOf(head: int, picked: seq<nat>): int {
    if picked == [] then head else picked[|picked| - 1]
  }

  /** What a scan upwards from head has when it has tested the entries before idx. */
  ghost predicate PicksUp(t: Table, keys: seq<string>, pattern: string, head: nat, idx: nat, n: nat, last: int, picked: seq<nat>, more: bool)
    requires Columns(t.ic, t.mode, t.size) && t.size == |keys| && head <= idx <= t.size
  {
    var all, start := Found(t, keys, true, pattern, idx), |Found(t, keys, true, pattern, head)|;
    forall k: int :: Asked(k, (idx, picked, more)) ==>
      start <= |all| && picked == PickedUp(all, start, n) && more == (|all| > start + n) && last == LastOf(head, picked)
  }

  /** What a scan downwards from head has when it has tested the entries from idx on. */
  ghost predicate PicksDown(t: Table, keys: seq<string>, pattern: string, head: int, idx: nat, n: nat, last: int, picked: seq<nat>, more: bool)
    requires Columns(t.ic, t.mode, t.size) && t.size == |keys| && 0 <= idx <= head + 1 <= t.size
  {
    var found, down := Found(t, keys, true, pattern, head + 1), |Found(t, keys, true, pattern, idx)|;
    forall k: int :: Asked(k, (idx, picked, more)) ==>
      down <= |found| && picked == PickedDown(found, down, n) && more == (down < |found| - n) && last == LastOf(head, picked)
  }

  /** What the test of entry idx adds. */
  ghost predicate Adds(idx: nat, b: bool, n: nat, last: int, picked: seq<nat>, more: bool, last': int, picked': seq<nat>, more': bool) {
    if !b then last' == last && picked' == picked && more' == more
    else if |picked| < n then last' == idx && picked' == picked + [idx] && more' == more
    else last' == last && picked' == picked && more'
  }

  lemma PickUpStep(t: Table, keys: seq<string>, pattern: string, head: nat, idx: nat, next: nat, n: nat,
                   last: int, picked: seq<nat>, more: bool, last': int, picked': seq<nat>, more': bool)
    requires Columns(t.ic, t.mode, t.size) && t.size == |keys| && head <= idx < t.size && next == idx + 1
    requires PicksUp(t, keys, pattern, head, idx, n, last, picked, more)
    requires Adds(idx, Matches(pattern, keys[idx]), n, last, picked, more, last', picked', more')
    ensures PicksUp(t, keys, pattern, head, next, n, last', picked', more')
  {
    assert Asked(0, (idx, picked, more));
    var before, after := Found(t, keys, true, pattern, idx), Found(t, keys, true, pattern, next);
    var start := |Found(t, keys, true, pattern, head)|;
    if Matches(pattern, keys[idx]) {
      assert after == before + [idx];
      assert PickedUp(after, start, n) == picked';
    }
  }

  lemma PickDownStep(t: Table, keys: seq<string>, pattern: string, head: int, idx: nat, above: nat, n: nat,
                     last: int, picked: seq<nat>, more: bool, last': int, picked': seq<nat>, more': bool)
    requires Columns(t.ic, t.mode, t.size) && t.size == |keys| && above == idx + 1 <= head + 1 <= t.size
    requires PicksDown(t, keys, pattern, head, above, n, last, picked, more)
    requires Adds(idx, Matches(pattern, keys[idx]), n, last, picked, more, last', picked', more')
    ensures PicksDown(t, keys, pattern, head, idx, n, last', picked', more')
  {
    assert Asked(0, (above, picked, more));
    var found := Found(t, keys, true, pattern, head + 1);
    var down := |Found(t, keys, true, pattern, idx)|;
    if Matches(pattern, keys[idx]) {
      assert Found(t, keys, true, pattern, above) == Found(t, keys, true, pattern, idx) + [idx];
      FoundGrows(t, keys, true, pattern, above, head + 1);
      assert found[down] == found[..down + 1][down] == idx;
      OneMoreDown(found, down, n);
    }
  }

  lemma OneMoreDown(found: seq<nat>, down: nat, n: nat)
    requires down < |found|
    ensures PickedDown(found, down, n) == PickedDown(found, down + 1, n) + if down >= |found| - n then [found[down]] else []
    ensures |PickedDown(found, down + 1, n)| < n <==> down >= |found| - n
  {
    if down >= |found| - n {
      assert found[down..] == [found[down]] + found[down + 1..];
    }
  }

  lemma FoundBelow(t: Table, keys: seq<string>, wild: bool, keystroke: string, n: nat)
    requires Columns(t.ic, t.mode, t.size) && t.size == |keys| && n <= t.size
    ensures forall k :: k in Found(t, keys, wild, keystroke, n) ==> k < n
  {
    var all := Found(t, keys, wild, keystroke, n);
    forall k | k in all ensures k < n {
      var i :| 0 <= i < |all| && all[i] == k;
      FoundAt(t, keys, wild, keystroke, n, i);
    }
  }

  lemma PickedUpBelow(t: Table, keys: seq<string>, pattern: string, head: nat, n: nat, last: int, picked: seq<nat>, more: bool)
    requires Columns(t.ic, t.mode, t.size) && t.size == |keys| && head <= t.size
    requires PicksUp(t, keys, pattern, head, t.size, n, last, picked, more)
    ensures forall k :: k in picked ==> k < t.size
  {
    var size: nat := t.size;
    assert Asked(0, (size, picked, more));
    var start := |Found(t, keys, true, pattern, head)|;
    forall k | k in picked ensures k < t.size {
      var i :| 0 <= i < |picked| && picked[i] == k;
      FoundAt(t, keys, true, pattern, t.size, start + i);
    }
  }

  lemma PickedDownBelow(t: Table, keys: seq<string>, pattern: string, head: int, n: nat, last: int, picked: seq<nat>, more: bool)
    requires Columns(t.ic, t.mode, t.size) && t.size == |keys| && -1 <= head < t.size
    requires PicksDown(t, keys, pattern, head, 0, n, last, picked, more)
    ensures forall k :: k in picked ==> k < t.size
  {
    var idx: nat := 0;
    assert Asked(0, (idx, picked, more));
    var found := Found(t, keys, true, pattern, head + 1);
    forall k | k in picked ensures k < t.size {
      var i :| 0 <= i < |picked| && picked[i] == k;
      FoundAt(t, keys, true, pattern, head + 1, |found| - 1 - i);
    }
  }

  /** A match is picked, or, if the page is full, only noticed. */
  method AddMatch(idx: nat, b: bool, n: nat, last0: int, picked0: seq<nat>, more0: bool) returns (last: int, picked: seq<nat>, more: bool)
    ensures Adds(idx, b, n, last0, picked0, more0, last, picked, more)
  {
    last, picked, more := last0, picked0, more0;
    if b {
      if |picked| < n {
        picked := picked + [idx];
        last := idx;
      } else {
        more := true;
      }
    }
  }

  method PickUp(t: Table, ghost keys: seq<string>, pattern: string, head: nat, n: nat) returns (last: int, picked: seq<nat>, more: bool)
    requires Holds(t, keys) && head <= t.size
    ensures PicksUp(t, keys, pattern, head, t.size, n, last, picked, more)
    ensures forall k :: k in picked ==> k < t.size
  {
    last, picked, more := head, [], false;
    var idx := head;
    while idx < t.size && |picked| <= n
      invariant head <= idx <= t.size && |picked| <= n
      invariant PicksUp(t, keys, pattern, head, idx, n, last, picked, more)
    {
      ghost var last0, picked0, more0 := last, picked, more;
      var b := TestEntry(t, keys, pattern, idx);
      last, picked, more := AddMatch(idx, b, n, last, picked, more);
      PickUpStep(t, keys, pattern, head, idx, idx + 1, n, last0, picked0, more0, last, picked, more);
      idx := idx + 1;
    }
    PickedUpBelow(t, keys, pattern, head, n, last, picked, more);
  }

  method PickDown(t: Table, ghost keys: seq<string>, pattern: string, head: int, n: nat) returns (last: int, picked: seq<nat>, more: bool)
    requires Holds(t, keys) && -1 <= head < t.size
    ensures PicksDown(t, keys, pattern, head, 0, n, last, picked, more)
    ensures forall k :: k in picked ==> k < t.size
  {
    last, picked, more := head, [], false;
    var idx := head;
    while idx >= 0 && |picked| <= n
      invariant -1 <= idx <= head && |picked| <= n
      invariant PicksDown(t, keys, pattern, head, idx + 1, n, last, picked, more)
    {
      ghost var last0, picked0, more0 := last, picked, more;
      var b := TestEntry(t, keys, pattern, idx);
      last, picked, more := AddMatch(idx, b, n, last, picked, more);
      PickDownStep(t, keys, pattern, head, idx, idx + 1, n, last0, picked0, more0, last, picked, more);
      idx := idx - 1;
    }
    PickedDownBelow(t, keys, pattern, head, n, last, picked, more);
  }

  /** How the page stands among the others. */
  datatype PageState = OnePage | First | Middle | Last

  function StateOf(before: bool, after: bool): PageState {
    if before then (if after then Middle else Last) else if after then First else OnePage
  }

  datatype Reply = Absorb | Correct | Wrong | ChooseFirst

  /** The entries on the page that starts with candidate first. */
  function Window(all: seq<nat>, n: nat, first: nat): (r: seq<nat>)
    requires first <= |all|
    ensures forall k :: k in r ==> k in all
  {
    all[first..Min(first + n, |all|)]
  }

  /** How many candidates the paging of plain keystrokes counts: the number is kept in a byte. */
  function Counted(wild: bool, total: nat): nat {
    if wild then total else total % 256
  }

  /** What the page state says about pages after this one. */
  function SaysMore(wild: bool, total: nat, n: nat, first: nat): bool {
    if first == 0 then n < total else first + n < Counted(wild, total)
  }

  /** Where a scan for the page before and after will start. */
  ghost predicate Around(all: seq<nat>, size: nat, n: nat, first: nat, hidx: int, eidx: int)
    requires first < |all| && 0 < n
  {
    var end := Min(first + n, |all|);
    && 0 <= hidx <= all[first] && (first > 0 ==> all[first - 1] < hidx)
    && all[end - 1] <= eidx < size && (end < |all| ==> eidx < all[end])
  }

  /** How many candidates come before h. */
  lemma RankIs(t: Table, keys: seq<string>, wild: bool, keystroke: string, h: nat, m: nat)
    requires Columns(t.ic, t.mode, t.size) && t.size == |keys| && h <= t.size
    requires var all := Found(t, keys, wild, keystroke, t.size);
      m <= |all| && (m > 0 ==> all[m - 1] < h) && (m < |all| ==> all[m] >= h)
    ensures |Found(t, keys, wild, keystroke, h)| == m
  {
    var all, before := Found(t, keys, wild, keystroke, t.size), Found(t, keys, wild, keystroke, h);
    FoundGrows(t, keys, wild, keystroke, h, t.size);
    if m < |before| {
      FoundAt(t, keys, wild, keystroke, h, m);
    }
  }

  /** The scan behind the page picks the next page. */
  lemma NextPicked(t: Table, keys: seq<string>, pattern: string, n: nat, first: nat, hidx: int, eidx: int, head: nat, last: int,
                   picked: seq<nat>, more: bool, all: seq<nat>, next: nat)
    requires Columns(t.ic, t.mode, t.size) && t.size == |keys| && 0 < n && all == Found(t, keys, true, pattern, t.size)
    requires first + n == next < |all| && Around(all, t.size, n, first, hidx, eidx)
    requires head == eidx + 1 && PicksUp(t, keys, pattern, head, t.size, n, last, picked, more)
    ensures picked == Window(all, n, next) && more == SaysMore(true, |all|, n, next) && Around(all, t.size, n, next, head, last)
  {
    RankIs(t, keys, true, pattern, head, next);
    var size: nat := t.size;
    assert Asked(0, (size, picked, more));
    FoundAt(t, keys, true, pattern, t.size, Min(next + n, |all|) - 1);
    if next + n < |all| {
      FoundAscends(t, keys, true, pattern, t.size, next + n - 1, next + n);
    }
  }

  /** The scan before the page picks the page before, last candidate first. */
  lemma PreviousPicked(t: Table, keys: seq<string>, pattern: string, n: nat, first: nat, hidx: int, eidx: int, head: int, last: int,
                       picked: seq<nat>, more: bool)
    requires Columns(t.ic, t.mode, t.size) && t.size == |keys| && 0 < n <= first
    requires var all := Found(t, keys, true, pattern, t.size);
      first < |all| && Around(all, t.size, n, first, hidx, eidx)
    requires head == hidx - 1 < t.size && PicksDown(t, keys, pattern, head, 0, n, last, picked, more)
    ensures var all := Found(t, keys, true, pattern, t.size);
      && picked == Reversed(Window(all, n, first - n)) && more == (first > n)
      && Around(all, t.size, n, first - n, last, head)
  {
    var all := Found(t, keys, true, pattern, t.size);
    RankIs(t, keys, true, pattern, head + 1, first);
    FoundGrows(t, keys, true, pattern, head + 1, t.size);
    var idx: nat := 0;
    assert Asked(0, (idx, picked, more));
    var before := Found(t, keys, true, pattern, head + 1);
    assert before[first - n..] == all[..first][first - n..] == Window(all, n, first - n);
    if first > n {
      FoundAscends(t, keys, true, pattern, t.size, first - n - 1, first - n);
    }
    assert last == all[first - n];
  }

  lemma FirstPicked(t: Table, keys: seq<string>, pattern: string, n: nat, lb: nat, last: int, picked: seq<nat>, more: bool)
    requires Columns(t.ic, t.mode, t.size) && t.size == |keys| && 0 < n && lb <= t.size
    requires Found(t, keys, true, pattern, lb) == []
    requires PicksUp(t, keys, pattern, lb, t.size, n, last, picked, more)
    ensures var all := Found(t, keys, true, pattern, t.size);
      && picked == Window(all, n, 0) && more == SaysMore(true, |all|, n, 0)
      && (all != [] ==> Around(all, t.size, n, 0, lb, last))
  {
    var all := Found(t, keys, true, pattern, t.size);
    var size: nat := t.size;
    assert Asked(0, (size, picked, more));
    FoundGrows(t, keys, true, pattern, lb, t.size);
    if all != [] {
      FoundAt(t, keys, true, pattern, t.size, Min(n, |all|) - 1);
      if n < |all| {
        FoundAscends(t, keys, true, pattern, t.size, n - 1, n);
      }
    }
  }

  /** Entries lb to ub - 1. */
  function Run(lb: nat, ub: nat): (r: seq<nat>)
    requires lb <= ub
    ensures |r| == ub - lb && forall i :: 0 <= i < |r| ==> r[i] == lb + i
  {
    seq(ub - lb, i requires 0 <= i < ub - lb => lb + i)
  }

  lemma {:induction false} FoundRun(t: Table, keys: seq<string>, keystroke: string, lb: nat, ub: nat, n: nat)
    requires Columns(t.ic, t.mode, t.size) && t.size == |keys| && lb <= ub <= t.size && n <= t.size
    requires forall k: nat :: k < n ==> (Wanted(t, keys, false, keystroke, k) <==> lb <= k < ub)
    ensures Found(t, keys, false, keystroke, n) == if n <= lb then [] else Run(lb, Min(n, ub))
  {
    if n > 0 {
      FoundRun(t, keys, keystroke, lb, ub, n - 1);
      if lb < n <= ub {
        assert Run(lb, n) == (if n - 1 <= lb then [] else Run(lb, n - 1)) + [n - 1];
      }
    }
  }

  /** The entries with one code stand together: from the first of them to the first other one. */
  lemma EqualRun(t: Table, keys: seq<string>, keystroke: string, icode: seq<nat>, lb: nat, ub: nat)
    requires Holds(t, keys) && icode == Packed(keystroke, t.mode) && lb < ub <= t.size
    requires Splits(t.ic, t.mode, t.size, icode, lb)
    requires forall k :: lb <= k < ub ==> CmpWords(Row(t.ic, t.mode, k), icode, 0) == 0
    requires ub < t.size ==> CmpWords(Row(t.ic, t.mode, ub), icode, 0) != 0
    ensures Found(t, keys, false, keystroke, t.size) == Run(lb, ub)
  {
    CmpReflexive(icode, 0);
    if ub < t.size {
      AboveLater(t.ic, t.mode, t.size, icode, ub);
    }
    forall k: nat | k < t.size ensures Wanted(t, keys, false, keystroke, k) <==> lb <= k < ub {
      if lb <= k < ub {
        CmpZero(Row(t.ic, t.mode, k), icode, 0);
        assert Row(t.ic, t.mode, k)[0..] == Row(t.ic, t.mode, k) && icode[0..] == icode;
      }
    }
    FoundRun(t, keys, keystroke, lb, ub, t.size);
  }

  lemma NoneEqual(t: Table, keys: seq<string>, keystroke: string)
    requires Holds(t, keys) && forall k :: 0 <= k < t.size ==> Row(t.ic, t.mode, k) != Packed(keystroke, t.mode)
    ensures Found(t, keys, false, keystroke, t.size) == []
  {
    FoundNone(t, keys, false, keystroke, t.size);
  }

  /** What the page and the fields behind it say when the page starts with candidate first. */
  ghost predicate PageIs(t: Table, all: seq<nat>, wild: bool, n: nat, first: nat, mcch: seq<int>, pgstate: PageState)
    requires (forall k :: k in all ==> k < t.size <= |t.icidx|)
  {
    first < |all| && mcch == Chars(t, Window(all, n, first)) && pgstate == StateOf(first > 0, SaysMore(wild, |all|, n, first))
  }

  /** The code of a keystroke in as many words as keys2codes is given. */
  method Encode(keystroke: string, size: nat) returns (icode: array<nat>)
    requires 0 < size <= MAX_ICODE_MODE
    ensures fresh(icode) && icode.Length == MAX_ICODE_MODE
    ensures forall i :: 0 <= i < Written(keystroke, size) ==> icode[i] == Word(keystroke, i)
    ensures forall i :: Written(keystroke, size) <= i < MAX_ICODE_MODE ==> icode[i] == 0
  {
    icode := new nat[MAX_ICODE_MODE](_ => 0);
    var _ := KeysToCodes(icode, size, keystroke);
  }

  /** Where the search for a wildcard pattern starts: at the place of its literal prefix. */
  method StartOfWild(t: Table, ghost keys: seq<string>, pattern: string) returns (lb: nat)
    requires Holds(t, keys) && SkipPlain(pattern, 0) < TOK_SIZE
    ensures lb <= t.size && Found(t, keys, true, pattern, lb) == []
  {
    var q := 0;
    while q < |pattern| && !IsWild(pattern[q])
      invariant q <= |pattern| && SkipPlain(pattern, 0) == SkipPlain(pattern, q)
    {
      q := q + 1;
    }
    var icode := Encode(pattern[..q], 2);
    TenKeys(pattern[..q], icode[..], t.mode);
    var idx := BsearchChar(t.ic, icode[..t.mode], t.size, t.mode, true);
    assert icode[..][..t.mode] == icode[..t.mode];
    NoMatchBefore(t, keys, pattern, idx);
    lb := idx;
  }

  /** The entries with the code of a keystroke: lb to ub - 1, or none. */
  method EntriesOf(t: Table, ghost keys: seq<string>, keystroke: string) returns (lb: int, ub: int)
    requires Holds(t, keys) && |keystroke| <= 5 * MAX_ICODE_MODE
    ensures lb < 0 ==> Found(t, keys, false, keystroke, t.size) == []
    ensures lb >= 0 ==> lb < ub <= t.size && Found(t, keys, false, keystroke, t.size) == Run(lb, ub)
  {
    var words := Encode(keystroke, MAX_ICODE_MODE);
    ClearedHoldsPacked(words[..], keystroke, MAX_ICODE_MODE);
    var icode := words[..t.mode];
    assert icode == words[..][..MAX_ICODE_MODE][..t.mode] == Packed(keystroke, t.mode);
    lb := BsearchChar(t.ic, icode, t.size, t.mode, false);
    ub := lb;
    if lb == -1 {
      NoneEqual(t, keys, keystroke);
      return;
    }
    CmpReflexive(icode, 0);
    var same := 0;
    while ub < t.size && same == 0
      invariant lb <= ub <= t.size && (ub == lb ==> same == 0)
      invariant forall k :: lb <= k < ub ==> CmpWords(Row(t.ic, t.mode, k), icode, 0) == 0
      invariant same != 0 ==> ub < t.size && CmpWords(Row(t.ic, t.mode, ub), icode, 0) != 0
      decreases t.size - ub, if same == 0 then 1 else 0
    {
      same := CmpIcvalue(t.ic, ub, icode, t.mode);
      if same == 0 {
        ub := ub + 1;
      }
    }
    EqualRun(t, keys, keystroke, icode, lb, ub);
  }

  /** A page on, a page back, or to the start. */
  function TurnedTo(first: int, dir: int, n: nat): int {
    if dir == 0 then 0 else if dir == 1 then first + n else first - n
  }

  /** The first candidate of the page asked for. The test for a page before compares unsigned numbers: it never refuses. */
  method MovedTo(hidx: nat, dir: int, n: nat, count: nat) returns (ok: bool, to: nat)
    requires -1 <= dir <= 1 && (dir == -1 ==> n <= hidx < 0x1_0000_0000)
    ensures ok == (dir == 1 ==> hidx + n < count)
    ensures to == if !ok then hidx else TurnedTo(hidx, dir, n)
  {
    ok, to := true, hidx;
    if dir == 0 {
      to := 0;
    } else if dir == 1 {
      if hidx + n < count {
        to := hidx + n;
      } else {
        ok := false;
      }
    } else {
      var before := (hidx - n) % 0x1_0000_0000;
      if before >= 0 {
        to := before;
      } else {
        ok := false;
      }
    }
  }

  /** The candidates of a page, and its state. */
  method PageOf(list: seq<int>, hidx: nat, n: nat, count: nat) returns (page: seq<int>, state: PageState)
    requires hidx <= |list| && (hidx > 0 ==> hidx < count < 0x1_0000_0000)
    ensures page == list[hidx..Min(hidx + n, |list|)]
    ensures state == if hidx == 0 then (if n < |list| then First else OnePage) else if hidx + n < count then Middle else Last
  {
    page := [];
    var i, j := 0, hidx;
    while i < n && j < |list|
      invariant i <= n && hidx <= j <= |list| && i == j - hidx
      invariant page == list[hidx..j]
    {
      page := page + [list[j]];
      i, j := i + 1, j + 1;
    }
    if hidx == 0 {
      state := if i < |list| then First else OnePage;
    } else if (count - hidx) % 0x1_0000_0000 > n {
      state := Middle;
    } else {
      state := Last;
    }
  }

  lemma CharsOfWindow(t: Table, all: seq<nat>, n: nat, first: nat)
    requires first <= |all| && forall k :: k in all ==> k < |t.icidx|
    ensures Chars(t, all)[first..Min(first + n, |all|)] == Chars(t, Window(all, n, first))
  {
  }

  lemma ReversedChars(t: Table, entries: seq<nat>, backwards: seq<nat>, cch: seq<int>)
    requires (forall k :: k in entries ==> k < |t.icidx|) && (forall k :: k in backwards ==> k < |t.icidx|)
    requires backwards == Reversed(entries) && cch == Chars(t, backwards)
    ensures Reversed(cch) == Chars(t, entries)
  {
  }

  /** The fields of a selector; first is the first candidate of the page, and back says that it was turned back to. */
  datatype View = View(
    wild: bool, keystroke: string, first: nat, mcch: seq<int>, mkeyList: seq<nat>, pgstate: PageState,
    hidx: int, eidx: int, list: seq<int>, count: nat, back: bool)

  /** Pages start at multiples of their size. */
  predicate PageStart(first: nat, n: nat)
    requires 0 < n
    decreases first
  {
    first == 0 || (n <= first && PageStart(first - n, n))
  }

  /** The page before and after one. */
  lemma TurnedStart(first: nat, n: nat, dir: int, to: int)
    requires 0 < n && PageStart(first, n) && -1 <= dir <= 1 && (dir == -1 ==> first > 0)
    requires to == TurnedTo(first, dir, n)
    ensures to >= 0 && PageStart(to, n)
  {
  }

  lemma {:induction false} PageStarts(first: nat, n: nat, page: nat)
    requires 0 < n && first == page * n
    ensures PageStart(first, n)
  {
    if page > 0 {
      PageStarts(first - n, n, page - 1);
    }
  }

  lemma {:induction false} PageNumber(first: nat, n: nat) returns (page: nat)
    requires 0 < n && PageStart(first, n)
    ensures first == page * n
    decreases first
  {
    if first == 0 {
      page := 0;
    } else {
      var before := PageNumber(first - n, n);
      page := before + 1;
    }
  }

  ghost predicate Usable(t: Table, keys: seq<string>, n: nat, keystroke: string) {
    Holds(t, keys) && 0 < n && |keystroke| <= 5 * MAX_ICODE_MODE
  }

  /** The candidates: every wanted entry of the table, ascending. */
  ghost function All(t: Table, keys: seq<string>, wild: bool, keystroke: string): (all: seq<nat>)
    requires Holds(t, keys)
    ensures forall k :: k in all ==> k < t.size <= |t.icidx|
  {
    FoundBelow(t, keys, wild, keystroke, t.size);
    Found(t, keys, wild, keystroke, t.size)
  }

  /** The page is the right window of the candidates, its state is true, and the fields are ready for the moves from it. */
  ghost predicate Shows(t: Table, n: nat, all: seq<nat>, v: View)
    requires 0 < n && forall k :: k in all ==> k < t.size <= |t.icidx|
  {
    && PageIs(t, all, v.wild, n, v.first, v.mcch, v.pgstate)
    && PageStart(v.first, n)
    && if v.wild then
         && Around(all, t.size, n, v.first, v.hidx, v.eidx)
         && v.mkeyList == (if v.back then Reversed(Window(all, n, v.first)) else Window(all, n, v.first))
       else
         && v.count == Counted(false, |all|) && (v.first > 0 ==> v.first < v.count)
         && (n < |all| ==> v.hidx == v.first && v.list == Chars(t, all))
  }

  ghost predicate Showing(t: Table, keys: seq<string>, n: nat, v: View) {
    Usable(t, keys, n, v.keystroke) && forall k: int :: Asked(k, v) ==> Shows(t, n, All(t, keys, v.wild, v.keystroke), v)
  }

  lemma ShowingIs(t: Table, keys: seq<string>, n: nat, v: View)
    requires Showing(t, keys, n, v)
    ensures Shows(t, n, All(t, keys, v.wild, v.keystroke), v)
  {
    assert Asked(0, v);
  }

  lemma WildShows(t: Table, keys: seq<string>, n: nat, v: View, all: seq<nat>, first: nat, page: seq<nat>)
    requires Usable(t, keys, n, v.keystroke) && v.wild && all == All(t, keys, true, v.keystroke)
    requires v.first == first < |all| && page == Window(all, n, first) && (forall k :: k in page ==> k < |t.icidx|)
    requires PageStart(first, n) && Around(all, t.size, n, first, v.hidx, v.eidx)
    requires v.mcch == Chars(t, page) && v.pgstate == StateOf(first > 0, SaysMore(true, |all|, n, first))
    requires v.mkeyList == if v.back then Reversed(page) else page
    ensures Showing(t, keys, n, v)
  {
    assert Shows(t, n, all, v);
  }

  lemma WildAround(t: Table, keys: seq<string>, n: nat, v: View, all: seq<nat>, next: nat)
    requires Showing(t, keys, n, v) && v.wild && all == All(t, keys, true, v.keystroke) && next == v.first + n
    ensures all == Found(t, keys, true, v.keystroke, t.size)
    ensures v.first < |all| && Around(all, t.size, n, v.first, v.hidx, v.eidx) && PageStart(next, n)
  {
    ShowingIs(t, keys, n, v);
  }

  lemma NextShown(t: Table, keys: seq<string>, n: nat, v: View, w: View, head: nat, last: int, picked: seq<nat>, cch: seq<int>, more: bool)
    requires Showing(t, keys, n, v) && v.wild && v.first + n < |All(t, keys, true, v.keystroke)| && head == v.eidx + 1 <= t.size
    requires PicksUp(t, keys, v.keystroke, head, t.size, n, last, picked, more)
    requires (forall k :: k in picked ==> k < t.size) && cch == Chars(t, picked)
    requires w == v.(mcch := cch, mkeyList := picked, pgstate := if more then Middle else Last, hidx := head, eidx := last, first := v.first + n,
                     back := false)
    ensures Showing(t, keys, n, w) && picked == Window(All(t, keys, true, v.keystroke), n, w.first)
  {
    var all, next := All(t, keys, true, v.keystroke), v.first + n;
    WildAround(t, keys, n, v, all, next);
    NextPicked(t, keys, v.keystroke, n, v.first, v.hidx, v.eidx, head, last, picked, more, all, next);
    WildShows(t, keys, n, w, all, next, picked);
  }

  lemma PreviousShown(t: Table, keys: seq<string>, n: nat, v: View, w: View, head: int, last: int, picked: seq<nat>, cch: seq<int>, more: bool)
    requires Showing(t, keys, n, v) && v.wild && n <= v.first && head == v.hidx - 1 && -1 <= head < t.size
    requires PicksDown(t, keys, v.keystroke, head, 0, n, last, picked, more)
    requires (forall k :: k in picked ==> k < t.size) && cch == Chars(t, picked)
    requires w == v.(mcch := Reversed(cch), mkeyList := picked, pgstate := if more then Middle else First, hidx := last, eidx := head,
                     first := v.first - n, back := true)
    ensures Showing(t, keys, n, w) && w.first < |All(t, keys, true, v.keystroke)|
    ensures picked == Reversed(Window(All(t, keys, true, v.keystroke), n, w.first))
  {
    ShowingIs(t, keys, n, v);
    PreviousPicked(t, keys, v.keystroke, n, v.first, v.hidx, v.eidx, head, last, picked, more);
    ReversedChars(t, Window(All(t, keys, true, v.keystroke), n, w.first), picked, cch);
  }

  lemma NormalShown(t: Table, keys: seq<string>, n: nat, v: View, w: View, to: nat, page: seq<int>, state: PageState)
    requires Showing(t, keys, n, v) && !v.wild && v.pgstate != OnePage
    requires to <= |v.list| && page == v.list[to..Min(to + n, |v.list|)] && (to > 0 ==> to < v.count) && PageStart(to, n)
    requires state == if to == 0 then (if n < |v.list| then First else OnePage) else if to + n < v.count then Middle else Last
    requires w == v.(mcch := page, pgstate := state, hidx := to, first := to)
    ensures Showing(t, keys, n, w)
  {
    ShowingIs(t, keys, n, v);
    CharsOfWindow(t, All(t, keys, false, v.keystroke), n, to);
  }

  /** What the state of a shown page tells. */
  lemma ShowingTells(t: Table, keys: seq<string>, n: nat, v: View)
    requires Showing(t, keys, n, v)
    ensures var all := All(t, keys, v.wild, v.keystroke);
      && v.first < |all| && v.pgstate == StateOf(v.first > 0, SaysMore(v.wild, |all|, n, v.first)) && (v.first > 0 ==> n <= v.first)
      && PageStart(v.first, n) && (v.wild ==> 0 <= v.hidx <= t.size && 0 <= v.eidx < t.size)
      && (!v.wild && v.pgstate != OnePage ==>
            v.hidx == v.first && v.count == Counted(false, |all|) && |v.list| == |all| && (v.first > 0 ==> v.first < v.count))
  {
    ShowingIs(t, keys, n, v);
    ShowsTells(t, n, All(t, keys, v.wild, v.keystroke), v);
  }

  lemma ShowsTells(t: Table, n: nat, all: seq<nat>, v: View)
    requires 0 < n && (forall k :: k in all ==> k < t.size <= |t.icidx|) && Shows(t, n, all, v)
    ensures v.first < |all| && v.pgstate == StateOf(v.first > 0, SaysMore(v.wild, |all|, n, v.first)) && PageStart(v.first, n)
    ensures v.first > 0 ==> n <= v.first
    ensures v.wild ==> 0 <= v.hidx <= t.size && 0 <= v.eidx < t.size
    ensures !v.wild && v.pgstate != OnePage ==>
              v.hidx == v.first && v.count == Counted(false, |all|) && |v.list| == |all| && (v.first > 0 ==> v.first < v.count)
  {
    assert v.wild ==> all[v.first] in all;
    assert !v.wild && v.pgstate != OnePage ==> n < |all|;
  }

  lemma FirstShown(t: Table, keys: seq<string>, n: nat, v: View, picked: seq<nat>, cch: seq<int>, more: bool, lb: nat)
    requires Usable(t, keys, n, v.keystroke) && v.wild && lb <= t.size && Found(t, keys, true, v.keystroke, lb) == []
    requires PicksUp(t, keys, v.keystroke, lb, t.size, n, v.eidx, picked, more)
    requires (forall k :: k in picked ==> k < t.size) && cch == Chars(t, picked)
    requires v.first == 0 && !v.back && v.mcch == cch && v.mkeyList == picked && v.hidx == lb && v.pgstate == if more then First else OnePage
    ensures |cch| > 0 <==> All(t, keys, true, v.keystroke) != []
    ensures |cch| > 0 ==> Showing(t, keys, n, v)
  {
    FirstPicked(t, keys, v.keystroke, n, lb, v.eidx, picked, more);
    var all := All(t, keys, true, v.keystroke);
    assert all == Found(t, keys, true, v.keystroke, t.size) && picked == Window(all, n, 0);
    if all != [] {
      assert Shows(t, n, all, v);
    }
  }

  lemma NormalFirst(t: Table, keys: seq<string>, n: nat, v: View, lb: nat, ub: nat, list: seq<int>)
    requires Usable(t, keys, n, v.keystroke) && !v.wild && lb < ub <= t.size && Found(t, keys, false, v.keystroke, t.size) == Run(lb, ub)
    requires |list| == ub - lb && forall i :: 0 <= i < |list| ==> list[i] == t.icidx[lb + i]
    requires v.first == 0 && v.mcch == list[..Min(n, |list|)] && v.count == |list| % 256
    requires if n >= |list| then v.pgstate == OnePage else v.pgstate == First && v.list == list && v.hidx == 0
    ensures Showing(t, keys, n, v)
  {
    var all := All(t, keys, false, v.keystroke);
    assert list == Chars(t, all);
    CharsOfWindow(t, all, n, 0);
    assert list[0..Min(0 + n, |list|)] == v.mcch;
  }

  class Selector {
    const table: Table
    ghost const keys: seq<string>
    const nSelkey: nat
    var keystroke: string
    var inWild: bool
    var mcch: seq<int>
    var mkeyList: seq<nat>
    var pgstate: PageState
    var mcchHidx: int
    var mcchEidx: int
    var mcchList: seq<int>
    var nCandidates: nat
    ghost var first: nat
    ghost var back: bool

    ghost function State(): View
      reads this
    {
      View(inWild, keystroke, first, mcch, mkeyList, pgstate, mcchHidx, mcchEidx, mcchList, nCandidates, back)
    }

    /** pick_cch_wild: the next matches from head on, upwards or downwards. */
    method PickWild(head: int, up: bool) returns (last: int, cch: seq<int>, more: bool)
      requires Holds(table, keys) && -1 <= head <= table.size && (up ==> head >= 0) && (!up ==> head < table.size)
      modifies this`mkeyList
      ensures
        if up then PicksUp(table, keys, keystroke, head, table.size, nSelkey, last, mkeyList, more)
        else PicksDown(table, keys, keystroke, head, 0, nSelkey, last, mkeyList, more)
      ensures (forall k :: k in mkeyList ==> k < table.size) && cch == Chars(table, mkeyList)
    {
      if up {
        last, mkeyList, more := PickUp(table, keys, keystroke, head, nSelkey);
      } else {
        last, mkeyList, more := PickDown(table, keys, keystroke, head, nSelkey);
      }
      cch := Chars(table, mkeyList);
    }

    method MatchWild() returns (ok: bool)
      requires Usable(table, keys, nSelkey, keystroke) && inWild
      modifies this`mcch, this`mkeyList, this`pgstate, this`mcchHidx, this`mcchEidx, this`first, this`back
      ensures ok == (All(table, keys, true, keystroke) != [])
      ensures if ok then Showing(table, keys, nSelkey, State()) && first == 0 && !back else mcch == []
    {
      var lb := StartOfWild(table, keys, keystroke);
      mcchHidx := lb;
      var idx, cch, more := PickWild(lb, true);
      pgstate := if more then First else OnePage;
      mcch := cch;
      mcchEidx := idx;
      first, back := 0, false;
      ok := |cch| > 0;
      FirstShown(table, keys, nSelkey, State(), mkeyList, cch, more, lb);
    }

    method MatchNormal() returns (ok: bool)
      requires Usable(table, keys, nSelkey, keystroke) && !inWild
      modifies this`mcch, this`pgstate, this`mcchHidx, this`mcchList, this`nCandidates, this`first, this`back
      ensures ok == (All(table, keys, false, keystroke) != [])
      ensures if ok then Showing(table, keys, nSelkey, State()) && first == 0 && !back else mcch == old(mcch)
    {
      var lb, ub := EntriesOf(table, keys, keystroke);
      if lb < 0 {
        return false;
      }
      var list := [];
      var idx := lb;
      while idx < ub
        invariant lb <= idx <= ub && |list| == idx - lb
        invariant forall i :: 0 <= i < |list| ==> list[i] == table.icidx[lb + i]
      {
        list := list + [table.icidx[idx]];
        idx := idx + 1;
      }
      nCandidates := |list| % 256;
      first, back := 0, false;
      mcch := list[..if nSelkey < |list| then nSelkey else |list|];
      if nSelkey >= |list| {
        pgstate := OnePage;
      } else {
        pgstate := First;
        mcchList := list;
        mcchHidx := 0;
      }
      NormalFirst(table, keys, nSelkey, State(), lb, ub, list);
      ok := true;
    }

    /** match_keystroke: nothing to choose from until something matches. */
    method MatchKeystroke() returns (ok: bool)
      requires Usable(table, keys, nSelkey, keystroke)
      modifies this
      ensures inWild == old(inWild) && keystroke == old(keystroke)
      ensures ok == (All(table, keys, inWild, keystroke) != [])
      ensures if ok then Showing(table, keys, nSelkey, State()) && first == 0 && !back else mcch == []
    {
      mcch := [];
      if !inWild {
        ok := MatchNormal();
      } else {
        ok := MatchWild();
      }
    }

    /** fillpage for plain keystrokes. */
    method FillNormal(dir: int) returns (ok: bool)
      requires Showing(table, keys, nSelkey, State()) && !inWild && pgstate != OnePage && -1 <= dir <= 1 && (dir == -1 ==> first > 0)
      modifies this`mcch, this`pgstate, this`mcchHidx, this`first
      ensures Showing(table, keys, nSelkey, State())
      ensures ok == (dir == 1 ==> old(first) + nSelkey < Counted(false, |All(table, keys, false, keystroke)|))
      ensures first == if !ok then old(first) else TurnedTo(old(first), dir, nSelkey)
    {
      ghost var v := State();
      ShowingTells(table, keys, nSelkey, v);
      var to;
      ok, to := MovedTo(mcchHidx, dir, nSelkey, nCandidates);
      if !ok {
        return;
      }
      TurnedStart(first, nSelkey, dir, to);
      var page, state := PageOf(mcchList, to, nSelkey, nCandidates);
      mcchHidx := to;
      first := to;
      mcch := page;
      pgstate := state;
      ghost var w := v.(mcch := page, pgstate := state, hidx := to, first := to);
      assert State() == w;
      NormalShown(table, keys, nSelkey, v, w, to, page, state);
    }

    /** fillpage in wildcard mode: the table is scanned again from where this page ends. */
    method FillWildUp() returns (ok: bool)
      requires Showing(table, keys, nSelkey, State()) && inWild
      modifies this`mcch, this`mkeyList, this`pgstate, this`mcchHidx, this`mcchEidx, this`first, this`back
      ensures Showing(table, keys, nSelkey, State()) && ok == (old(first) + nSelkey < |All(table, keys, true, keystroke)|)
      ensures first == (if ok then old(first) + nSelkey else old(first)) && back == if ok then false else old(back)
    {
      ghost var v := State();
      ShowingTells(table, keys, nSelkey, v);
      if pgstate != First && pgstate != Middle {
        return false;
      }
      var hidx := mcchEidx + 1;
      var last, cch, more := PickWild(hidx, true);
      mcch := cch;
      mcchHidx, mcchEidx := hidx, last;
      first, back := first + nSelkey, false;
      pgstate := if more then Middle else Last;
      ok := true;
      ghost var w := v.(mcch := cch, mkeyList := mkeyList, pgstate := if more then Middle else Last, hidx := hidx, eidx := last, first := first,
                        back := false);
      assert State() == w;
      NextShown(table, keys, nSelkey, v, w, hidx, last, mkeyList, cch, more);
    }

    /** And from where it starts; the candidates come in the wrong order, and their entries are left in it. */
    method FillWildDown() returns (ok: bool)
      requires Showing(table, keys, nSelkey, State()) && inWild
      modifies this`mcch, this`mkeyList, this`pgstate, this`mcchHidx, this`mcchEidx, this`first, this`back
      ensures Showing(table, keys, nSelkey, State()) && ok == (old(first) > 0)
      ensures first == (if ok then old(first) - nSelkey else old(first)) && back == if ok then true else old(back)
    {
      ghost var v := State();
      ShowingTells(table, keys, nSelkey, v);
      if pgstate != Last && pgstate != Middle {
        return false;
      }
      var eidx := mcchHidx - 1;
      var last, cch, more := PickWild(eidx, false);
      mcch := Reversed(cch);
      mcchHidx, mcchEidx := last, eidx;
      first, back := first - nSelkey, true;
      pgstate := if more then Middle else First;
      ok := true;
      ghost var w := v.(mcch := Reversed(cch), mkeyList := mkeyList, pgstate := if more then Middle else First, hidx := last, eidx := eidx,
                        first := first, back := true);
      assert State() == w;
      PreviousShown(table, keys, nSelkey, v, w, eidx, last, mkeyList, cch, more);
    }

    /** fillpage. */
    method FillPage(dir: int) returns (ok: bool)
      requires Showing(table, keys, nSelkey, State()) && pgstate != OnePage && -1 <= dir <= 1 && (dir == -1 ==> first > 0)
      modifies this
      ensures Showing(table, keys, nSelkey, State()) && inWild == old(inWild) && keystroke == old(keystroke)
      ensures ok == if dir == 1 then old(first) + nSelkey < Counted(inWild, |All(table, keys, inWild, keystroke)|) else dir == -1 || !inWild
      ensures first == if !ok then old(first) else TurnedTo(old(first), dir, nSelkey)
      ensures back == if inWild && ok then dir == -1 else old(back)
    {
      if !inWild {
        ok := FillNormal(dir);
      } else if dir == 1 {
        ok := FillWildUp();
      } else if dir == -1 {
        ok := FillWildDown();
      } else {
        ok := false;
      }
    }

    /** mcch_nextpage: a key turns the page where the page state allows it. */
    method NextPage(key: char) returns (r: Reply)
      requires Showing(table, keys, nSelkey, State())
      modifies this
      ensures Showing(table, keys, nSelkey, State()) && inWild == old(inWild) && keystroke == old(keystroke)
      ensures PageStart(old(first), nSelkey)
      ensures (first, r) == Turned(inWild, |All(table, keys, inWild, keystroke)|, nSelkey, old(first), key)
      ensures back == if inWild then TurnedBack(|All(table, keys, true, keystroke)|, nSelkey, old(first), key, old(back)) else old(back)
    {
      ShowingTells(table, keys, nSelkey, State());
      r := Wrong;
      if key != ' ' && key != '<' && key != '>' {
        return;
      }
      var ok;
      match pgstate {
        case OnePage =>
          r := if key == ' ' then ChooseFirst else Correct;
        case Last =>
          ok := FillPage(if key == '<' then -1 else 0);
          r := if ok then Absorb else Wrong;
        case First =>
          if key == '<' {
            r := Correct;
          } else {
            ok := FillPage(1);
            r := if ok then Absorb else Wrong;
          }
        case Middle =>
          ok := FillPage(if key == '<' then -1 else 1);
          r := if ok then Absorb else Wrong;
      }
    }

    /** A keystroke looked up and its pages turned. */
    method Browse(turns: string) returns (ok: bool)
      requires Usable(table, keys, nSelkey, keystroke)
      modifies this
      ensures inWild == old(inWild) && keystroke == old(keystroke)
      ensures ok == (All(table, keys, inWild, keystroke) != [])
      ensures ok ==> Showing(table, keys, nSelkey, State()) && first == TurnedBy(inWild, |All(table, keys, inWild, keystroke)|, nSelkey, turns)
      ensures ok && inWild ==> back == BackBy(|All(table, keys, true, keystroke)|, nSelkey, turns)
    {
      ok := MatchKeystroke();
      if !ok {
        return;
      }
      var i := 0;
      while i < |turns|
        invariant 0 <= i <= |turns| && inWild == old(inWild) && keystroke == old(keystroke)
        invariant Showing(table, keys, nSelkey, State())
        invariant first == TurnedBy(inWild, |All(table, keys, inWild, keystroke)|, nSelkey, turns[..i])
        invariant inWild ==> back == BackBy(|All(table, keys, true, keystroke)|, nSelkey, turns[..i])
      {
        assert turns[..i + 1][..i] == turns[..i];
        var _ := NextPage(turns[i]);
        i := i + 1;
      }
      assert turns[..|turns|] == turns;
    }

    /** get_correct_skeystroke: the full keystroke of a candidate that a wildcard found. */
    method SuggestKeystroke(idx: nat) returns (ks: string)
      requires Usable(table, keys, nSelkey, keystroke)
      requires forall i :: 0 <= i < |mkeyList| ==> mkeyList[i] < table.size && Matches(keystroke, keys[mkeyList[i]])
      ensures ks == if idx < |mkeyList| then keys[mkeyList[idx]] else ""
    {
      ks := "";
      if idx < |mkeyList| {
        var i := mkeyList[idx];
        var unpacked := UnpackEntry(table, keys, i);
        var ret := StrcmpWild(keystroke, unpacked);
        if ret == 0 {
          ks := unpacked;
        }
      }
    }
  }

  /** The page after a key, and the reply. */
  function Turned(wild: bool, total: nat, n: nat, first: nat, key: char): (r: (nat, Reply))
    requires 0 < n && PageStart(first, n)
    ensures PageStart(r.0, n)
  {
    var before, after := first > 0, SaysMore(wild, total, n, first);
    if key != ' ' && key != '<' && key != '>' then (first, Wrong)
    else if !before && !after then (first, if key == ' ' then ChooseFirst else Correct)
    else if key == '<' then (if before then (first - n, Absorb) else (first, Correct))
    else if after then (if first + n < Counted(wild, total) then (first + n, Absorb) else (first, Wrong))
    else if wild then (first, Wrong)
    else (0, Absorb)
  }

  /** Whether the page shown in wildcard mode after a key was turned back to; a key that turns nothing leaves that as it was. */
  function TurnedBack(total: nat, n: nat, first: nat, key: char, back: bool): bool
    requires 0 < n
  {
    if key == '<' then first > 0 || back
    else if (key == ' ' || key == '>') && SaysMore(true, total, n, first) then false
    else back
  }

  function BackBy(total: nat, n: nat, turns: string): bool
    requires 0 < n
  {
    if turns == "" then false
    else
      var before := turns[..|turns| - 1];
      TurnedBack(total, n, TurnedBy(true, total, n, before), turns[|turns| - 1], BackBy(total, n, before))
  }

  /** The page after some keys. */
  function TurnedBy(wild: bool, total: nat, n: nat, turns: string): (first: nat)
    requires 0 < n
    ensures PageStart(first, n)
  {
    if turns == "" then 0 else Turned(wild, total, n, TurnedBy(wild, total, n, turns[..|turns| - 1]), turns[|turns| - 1]).0
  }

  /** However the pages are turned, the page shown is a whole page of the candidates, and its state is true while they can be counted. */
  lemma PagesAreWindows(t: Table, keys: seq<string>, n: nat, v: View) returns (page: nat, first: nat)
    requires Showing(t, keys, n, v)
    ensures var all := All(t, keys, v.wild, v.keystroke);
      && first == page * n && first < |all|
      && v.mcch == Chars(t, Window(all, n, first))
      && (v.wild || |all| <= 255 ==> v.pgstate == StateOf(page > 0, first + n < |all|))
  {
    ShowingIs(t, keys, n, v);
    first := v.first;
    page := PageNumber(first, n);
    NotZero(page, n);
  }

  lemma NotZero(page: nat, n: nat)
    requires 0 < n
    ensures page * n > 0 <==> page > 0
  {
  }

  /** The pages that plain keystrokes can turn to. */
  predicate Reachable(total: nat, n: nat, first: nat)
    requires 0 < n
  {
    PageStart(first, n) && first < total && (first == 0 || first < Counted(false, total))
  }

  /** A page says whether there are more, and the key for the next one is not refused when there are. */
  predicate Truthful(total: nat, n: nat, first: nat) {
    && SaysMore(false, total, n, first) == (first + n < total)
    && (first + n < total ==> first + n < Counted(false, total))
  }

  function LastReached(n: nat, count: nat, first: nat): (last: nat)
    requires 0 < n && PageStart(first, n) && (first == 0 || first < count)
    ensures PageStart(last, n) && count <= last + n && (last == 0 || last < count)
    decreases count - first
  {
    if first + n < count then LastReached(n, count, first + n) else first
  }

  /** Counting candidates in a byte is right if and only if a byte can hold their number. */
  lemma ByteHoldsCount(total: nat, n: nat)
    requires 0 < n <= 16 && 0 < total
    ensures total <= 255 <==> forall first: nat :: Reachable(total, n, first) ==> Truthful(total, n, first)
  {
    if total > 255 {
      var last := LastReached(n, Counted(false, total), 0);
      assert Reachable(total, n, last) && !Truthful(total, n, last);
    }
  }

  predicate InTable(keys: seq<string>, entries: seq<nat>) {
    forall i :: 0 <= i < |entries| ==> entries[i] < |keys|
  }

  /** With 256 candidates the count is 0: the first page says that there are more, and the key for the next one is refused. */
  lemma CountLost()
    ensures Counted(false, 256) == 0 && Reachable(256, 10, 0) && !Truthful(256, 10, 0)
    ensures SaysMore(false, 256, 10, 0) && Turned(false, 256, 10, 0, '>') == (0, Wrong)
  {
  }

  /** The keystrokes of some entries. */
  function KeysOf(keys: seq<string>, entries: seq<nat>): (r: seq<string>)
    requires InTable(keys, entries)
    ensures |r| == |entries| && forall i :: 0 <= i < |r| ==> r[i] == keys[entries[i]]
  {
    seq(|entries|, i requires 0 <= i < |entries| => keys[entries[i]])
  }

  lemma ReversedKeys(keys: seq<string>, entries: seq<nat>)
    requires InTable(keys, entries)
    ensures InTable(keys, Reversed(entries)) && KeysOf(keys, Reversed(entries)) == Reversed(KeysOf(keys, entries))
  {
  }

  /** The entries the page's suggestions are taken from are candidates: each is one of those on the page. */
  lemma SuggestedOnPage(t: Table, keys: seq<string>, n: nat, v: View)
    requires Showing(t, keys, n, v) && v.wild
    ensures v.first <= |All(t, keys, true, v.keystroke)|
    ensures var page := Window(All(t, keys, true, v.keystroke), n, v.first);
      && (forall i :: 0 <= i < |page| ==> page[i] < |keys| && Matches(v.keystroke, keys[page[i]]))
      && v.mkeyList == if v.back then Reversed(page) else page
  {
    var all := All(t, keys, true, v.keystroke);
    WildPage(t, keys, n, v, all);
    WindowMatches(t, keys, v.keystroke, n, v.first, all, Window(all, n, v.first));
  }

  lemma WildPage(t: Table, keys: seq<string>, n: nat, v: View, all: seq<nat>)
    requires Showing(t, keys, n, v) && v.wild && all == All(t, keys, true, v.keystroke)
    ensures v.first <= |all| && v.mkeyList == if v.back then Reversed(Window(all, n, v.first)) else Window(all, n, v.first)
  {
    ShowingIs(t, keys, n, v);
  }

  lemma WindowMatches(t: Table, keys: seq<string>, keystroke: string, n: nat, first: nat, all: seq<nat>, page: seq<nat>)
    requires Holds(t, keys) && all == All(t, keys, true, keystroke) && first <= |all| && page == Window(all, n, first)
    ensures forall i :: 0 <= i < |page| ==> page[i] < |keys| && Matches(keystroke, keys[page[i]])
  {
    forall i | 0 <= i < |page| ensures page[i] < |keys| && Matches(keystroke, keys[page[i]]) {
      FoundAt(t, keys, true, keystroke, t.size, first + i);
    }
  }

  /** Keystrokes read the same backwards when there is one, and not when the first and last differ. */
  lemma SameBackwards(s: seq<string>)
    ensures |s| <= 1 ==> s == Reversed(s)
    ensures s != [] && s[0] != s[|s| - 1] ==> s != Reversed(s)
  {
  }

  /**
   * Every candidate of a wildcard page is suggested its own keystroke if and only if the page was not turned back to, or its
   * keystrokes read the same backwards: so for a page of one always, and never when its first and last keystrokes differ.
   */
  lemma SuggestionsRight(t: Table, keys: seq<string>, n: nat, v: View)
    requires Showing(t, keys, n, v) && v.wild
    ensures v.first <= |All(t, keys, true, v.keystroke)|
    ensures var page := Window(All(t, keys, true, v.keystroke), n, v.first);
      && InTable(keys, page) && InTable(keys, v.mkeyList)
      && (KeysOf(keys, v.mkeyList) == KeysOf(keys, page) <==> !v.back || KeysOf(keys, page) == Reversed(KeysOf(keys, page)))
      && (|page| <= 1 ==> KeysOf(keys, v.mkeyList) == KeysOf(keys, page))
      && (v.back && page != [] && keys[page[0]] != keys[page[|page| - 1]] ==> KeysOf(keys, v.mkeyList) != KeysOf(keys, page))
  {
    SuggestedOnPage(t, keys, n, v);
    var page := Window(All(t, keys, true, v.keystroke), n, v.first);
    ReversedKeys(keys, page);
    SameBackwards(KeysOf(keys, page));
  }

  /** Three one-key entries, two to a page, and the pattern "?": after a turn forth and back the first candidate is suggested "b". */
  lemma SuggestionWrong() returns (t: Table, keys: seq<string>, page: seq<nat>)
    ensures Holds(t, keys) && All(t, keys, true, "?") == [0, 1, 2]
    ensures TurnedBy(true, 3, 2, "><") == 0 && BackBy(3, 2, "><")
    ensures page == Window(All(t, keys, true, "?"), 2, 0) && InTable(keys, page)
    ensures KeysOf(keys, page) == ["a", "b"] != Reversed(KeysOf(keys, page))
  {
    keys := ["a", "b", "c"];
    t := Table([[Word("a", 0), Word("b", 0), Word("c", 0)]], [100, 101, 102], 1, 3, 1);
    SmallTable(t, keys);
    OneMark("a");
    OneMark("b");
    OneMark("c");
    ThreeFound(t, keys);
    page := [0, 1];
    ForthAndBack();
    FirstTwo(keys);
  }

  lemma FirstTwo(keys: seq<string>)
    requires keys == ["a", "b", "c"]
    ensures KeysOf(keys, [0, 1]) == ["a", "b"] != Reversed(KeysOf(keys, [0, 1]))
    ensures Window([0, 1, 2], 2, 0) == [0, 1]
  {
    assert Reversed(["a", "b"])[0] == "b";
  }

  lemma ThreeFound(t: Table, keys: seq<string>)
    requires Holds(t, keys) && t.size == 3 && forall k :: 0 <= k < 3 ==> Matches("?", keys[k])
    ensures All(t, keys, true, "?") == [0, 1, 2]
  {
    assert Found(t, keys, true, "?", 1) == [0];
    assert Found(t, keys, true, "?", 2) == [0, 1];
  }

  lemma ForthAndBack()
    ensures TurnedBy(true, 3, 2, "><") == 0 && BackBy(3, 2, "><")
  {
    assert "><"[..1] == ">" && ">"[..0] == "";
    assert TurnedBy(true, 3, 2, ">") == 2;
  }

  lemma OneMark(key: string)
    requires |key| == 1
    ensures Matches("?", key)
  {
    assert Tokens("?", 0) == Cons(Any, Nil);
  }

  lemma SmallTable(t: Table, keys: seq<string>)
    requires keys == ["a", "b", "c"]
    requires t == Table([[Word("a", 0), Word("b", 0), Word("c", 0)]], [100, 101, 102], 1, 3, 1)
    ensures Holds(t, keys)
  {
    forall k | 0 <= k < 3 ensures Entry(t, keys[k], k) {
      SmallRow(t, keys, k);
    }
    forall a, b | 0 <= a <= b < 3 ensures CmpWords(Row(t.ic, 1, a), Row(t.ic, 1, b), 0) <= 0 {
      SmallRow(t, keys, a);
      SmallRow(t, keys, b);
      InOrder(keys[a], keys[b]);
    }
  }

  lemma InOrder(a: string, b: string)
    requires |a| == 1 && |b| == 1 && 'a' <= a[0] <= b[0] <= 'c'
    ensures CmpWords(Packed(a, 1), Packed(b, 1), 0) <= 0
  {
    PackingKeepsOrder(a, b, 1);
  }

  lemma SmallRow(t: Table, keys: seq<string>, k: nat)
    requires keys == ["a", "b", "c"] && k < 3
    requires t == Table([[Word("a", 0), Word("b", 0), Word("c", 0)]], [100, 101, 102], 1, 3, 1)
    ensures Columns(t.ic, 1, 3) && Row(t.ic, 1, k) == Packed(keys[k], 1)
    ensures AllKeys(keys[k]) && keys[k] == Unshifted(keys[k])
  {
    assert Row(t.ic, 1, k) == Packed(keys[k], 1);
  }
}
