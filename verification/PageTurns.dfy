/** Where the page keys lead, counted in pages (src/Cinput/gen_inp/gen_inp.c, mcch_nextpage). */
module PageTurns {

  import opened Division
  import opened Paging

  /** The candidates fill so many pages of n, and can be counted. */
  predicate HasPages(wild: bool, total: nat, n: nat, pages: nat) {
    0 < n && 0 < pages && n * (pages - 1) < total <= n * pages && (!wild ==> total <= 255)
  }

  predicate Onwards(key: char) {
    key == ' ' || key == '>'
  }

  lemma PageStarts(n: nat, k: nat)
    requires 0 < n
    ensures PageStart(n * k, n)
  {
    if k > 0 {
      PageStarts(n, k - 1);
      assert n * k - n == n * (k - 1);
    }
  }

  lemma Multiples(n: nat, a: nat, b: nat)
    requires a <= b
    ensures n * a <= n * b && n * (b - a) == n * b - n * a
  {
  }

  /** There is more behind page k exactly if it is not the last. */
  lemma MoreBehind(wild: bool, total: nat, n: nat, pages: nat, k: nat)
    requires HasPages(wild, total, n, pages) && k < pages
    ensures PageStart(n * k, n) && (n * k == 0 <==> k == 0) && n * (k + 1) == n * k + n && (k > 0 ==> n * (k - 1) == n * k - n)
    ensures SaysMore(wild, total, n, n * k) <==> k + 1 < pages
    ensures k + 1 < pages ==> n * k + n < Counted(wild, total)
  {
    PageStarts(n, k);
    Multiples(n, 1, k + 1);
    if k > 0 {
      Multiples(n, 1, k);
    }
    if k + 1 < pages {
      Multiples(n, k + 1, pages - 1);
    }
  }

  /** A key onwards shows the next page; on the last one a plain keystroke starts over, and a wildcard stays. */
  lemma OnwardsTurns(wild: bool, total: nat, n: nat, pages: nat, k: nat, key: char)
    requires HasPages(wild, total, n, pages) && k < pages && 1 < pages && Onwards(key)
    ensures PageStart(n * k, n)
    ensures Turned(wild, total, n, n * k, key) ==
      if k + 1 < pages then (n * (k + 1), Absorb) else if wild then (n * k, Wrong) else (0, Absorb)
  {
    MoreBehind(wild, total, n, pages, k);
  }

  /** The key back shows the page before; on the first page it changes nothing. */
  lemma BackTurns(wild: bool, total: nat, n: nat, pages: nat, k: nat)
    requires HasPages(wild, total, n, pages) && k < pages
    ensures PageStart(n * k, n)
    ensures Turned(wild, total, n, n * k, '<') == if k > 0 then (n * (k - 1), Absorb) else (0, Correct)
  {
    MoreBehind(wild, total, n, pages, k);
  }

  /** So it undoes a key onwards, unless that started over, and a key onwards undoes it, unless it did nothing. */
  lemma TurnsUndo(wild: bool, total: nat, n: nat, pages: nat, k: nat, key: char)
    requires HasPages(wild, total, n, pages) && k + 1 < pages && Onwards(key)
    ensures PageStart(n * k, n) && PageStart(n * (k + 1), n)
    ensures Turned(wild, total, n, Turned(wild, total, n, n * k, key).0, '<') == (n * k, Absorb)
    ensures Turned(wild, total, n, Turned(wild, total, n, n * (k + 1), '<').0, key) == (n * (k + 1), Absorb)
  {
    OnwardsTurns(wild, total, n, pages, k, key);
    BackTurns(wild, total, n, pages, k + 1);
  }

  /** On a list of one page the blank chooses the first candidate, the other page keys do nothing; no other key is a page key. */
  lemma OnePageKeys(wild: bool, total: nat, n: nat, key: char)
    requires HasPages(wild, total, n, 1)
    ensures Turned(wild, total, n, 0, key) == (0, if key == ' ' then ChooseFirst else if key == '<' || key == '>' then Correct else Wrong)
  {
    MoreBehind(wild, total, n, 1, 0);
  }

  lemma OtherKeys(wild: bool, total: nat, n: nat, first: nat, key: char)
    requires 0 < n && PageStart(first, n) && !Onwards(key) && key != '<'
    ensures Turned(wild, total, n, first, key) == (first, Wrong)
  {
  }

  function NextPlace(j: nat, pages: nat): nat
    requires 0 < pages
  {
    if j % pages + 1 < pages then j % pages + 1 else 0
  }

  lemma ModStep(j: nat, pages: nat)
    requires 0 < pages
    ensures (j + 1) % pages == NextPlace(j, pages)
  {
    var q, r := j / pages, j % pages;
    if r + 1 < pages {
      ModIs(j + 1, q, r + 1, pages);
    } else {
      assert j + 1 == (q + 1) * pages;
      ModIs(j + 1, q + 1, 0, pages);
    }
  }

  lemma ModIs(x: nat, q: nat, r: nat, m: nat)
    requires r < m && x == q * m + r
    ensures x % m == r
  {
    DivIs(x, m, q);
    assert x == x / m * m + x % m;
  }

  /** The main property: so many keys onwards go round the pages of a plain keystroke, and up to the last of a wildcard. */
  lemma {:induction false} KeysOnwards(wild: bool, total: nat, n: nat, pages: nat, turns: string)
    requires HasPages(wild, total, n, pages) && forall i :: 0 <= i < |turns| ==> Onwards(turns[i])
    ensures TurnedBy(wild, total, n, turns) == n * (if wild then (if |turns| < pages then |turns| else pages - 1) else |turns| % pages)
    ensures !BackBy(total, n, turns)
    decreases |turns|
  {
    var j := |turns|;
    if j > 0 {
      var before, key := turns[..j - 1], turns[j - 1];
      KeysOnwards(wild, total, n, pages, before);
      ModStep(j - 1, pages);
      var k := if wild then (if j - 1 < pages then j - 1 else pages - 1) else (j - 1) % pages;
      if pages == 1 {
        OnePageKeys(wild, total, n, key);
      } else {
        OnwardsTurns(wild, total, n, pages, k, key);
      }
      NotBack(total, n, turns);
    } else {
      ModIs(0, 0, 0, pages);
    }
  }

  lemma NotBack(total: nat, n: nat, turns: string)
    requires 0 < n && turns != "" && Onwards(turns[|turns| - 1]) && !BackBy(total, n, turns[..|turns| - 1])
    ensures !BackBy(total, n, turns)
  {
  }

  /** And one back from a page that is not the first has turned back. */
  lemma TurnedBackBy(total: nat, n: nat, turns: string)
    requires 0 < n && turns != "" && turns[|turns| - 1] == '<' && TurnedBy(true, total, n, turns[..|turns| - 1]) > 0
    ensures BackBy(total, n, turns)
  {
  }
}
