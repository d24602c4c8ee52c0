/** How objects are written (src/lib/siod/slib.c): lists, numbers, quoted objects, spaces and comments, in characters. */
module SexpForms {

  import opened Division
  import opened Sealed
  import opened Strings
  import opened SexpText
  import opened SexpRoundTrip

  /** The list of these objects with this tail. */
  function ListOf(xs: seq<Obj>, tail: Obj): Obj {
    if xs == [] then tail else Cons(xs[0], ListOf(xs[1..], tail))
  }

  /** Texts with single spaces between them. */
  function Spaced(texts: seq<string>): string {
    if texts == [] then "" else if |texts| == 1 then texts[0] else texts[0] + " " + Spaced(texts[1..])
  }

  function Texts(xs: seq<Obj>): (r: seq<string>)
    ensures |r| == |xs| && forall i :: 0 <= i < |xs| ==> r[i] == Show(xs[i])
  {
    seq(|xs|, i requires 0 <= i < |xs| => Show(xs[i]))
  }

  /** A list is its elements in parentheses with spaces between them, and a tail other than nil behind a dot. */
  lemma {:induction false} ListShown(xs: seq<Obj>, tail: Obj)
    requires xs != [] && !tail.Cons?
    ensures Show(ListOf(xs, tail)) == "(" + Spaced(Texts(xs)) + (if tail == Nil then "" else " . " + Show(tail)) + ")"
  {
    RestShown(xs, tail);
    var a, d := xs[0], ListOf(xs[1..], tail);
    assert Show(Cons(a, d)) == "(" + Show(a) + ShowRest(d);
    assert "(" + Show(a) + ShowRest(d) == "(" + (Show(a) + ShowRest(d));
    assert "(" + (Spaced(Texts(xs)) + End(tail)) == "(" + Spaced(Texts(xs)) + End(tail);
    assert "(" + Spaced(Texts(xs)) + (if tail == Nil then "" else " . " + Show(tail)) + ")" == "(" + Spaced(Texts(xs)) + End(tail);
  }

  function End(tail: Obj): string {
    (if tail == Nil then "" else " . " + Show(tail)) + ")"
  }

  lemma {:induction false} RestShown(xs: seq<Obj>, tail: Obj)
    requires xs != [] && !tail.Cons?
    ensures Show(xs[0]) + ShowRest(ListOf(xs[1..], tail)) == Spaced(Texts(xs)) + End(tail)
  {
    if |xs| == 1 {
      assert ListOf(xs[1..], tail) == tail;
      assert ShowRest(tail) == End(tail);
    } else {
      var rest := xs[1..];
      RestShown(rest, tail);
      assert Texts(xs)[1..] == Texts(rest);
      assert ListOf(rest, tail) == Cons(rest[0], ListOf(rest[1..], tail));
      NextShown(Show(xs[0]), Show(rest[0]), ShowRest(ListOf(rest[1..], tail)), Spaced(Texts(rest)), End(tail));
    }
  }

  lemma NextShown(a: string, b: string, rest: string, spaced: string, end: string)
    requires b + rest == spaced + end
    ensures a + (" " + b + rest) == a + " " + spaced + end
  {
    assert " " + b + rest == " " + (b + rest);
    assert a + " " + spaced + end == a + (" " + (spaced + end));
  }

  // Numbers

  lemma DivTen(n: nat, k: nat)
    requires k > 0
    ensures TenTo(k) > 0 && TenTo(k - 1) > 0 && n / TenTo(k) == n / 10 / TenTo(k - 1)
  {
    TenPositive(k);
    TenPositive(k - 1);
    DivTwice(n, 10, TenTo(k - 1));
  }

  lemma {:induction false} TenPositive(k: nat)
    ensures TenTo(k) > 0
  {
    if k > 0 {
      TenPositive(k - 1);
    }
  }

  /** The digits of a number: the k-th from the right is the tens digit of that power, and the first is not 0 unless it is the only one. */
  lemma {:induction false} DigitAt(n: nat, k: nat)
    requires k < |Digits(n)|
    ensures TenTo(k) > 0 && Digits(n)[|Digits(n)| - 1 - k] == '0' + (n / TenTo(k) % 10) as char
    ensures |Digits(n)| > 1 ==> Digits(n)[0] != '0'
    ensures n < TenTo(|Digits(n)|)
    decreases n
  {
    TenPositive(k);
    if n < 10 {
      assert TenTo(0) == 1 && TenTo(1) == 10 * TenTo(0);
    } else {
      var s := Digits(n);
      DigitAt(n / 10, if k > 0 then k - 1 else 0);
      if k > 0 {
        DivTen(n, k);
        assert s[|s| - 1 - k] == Digits(n / 10)[|Digits(n / 10)| - 1 - (k - 1)];
      }
    }
  }

  // Quoted objects

  /** What stands behind a quote of its kind: the object in a list for ', the object itself for the others. */
  function Quoted(mark: string, x: Obj): Obj {
    if mark == "'" then Cons(Sym("quote"), Cons(x, Nil))
    else if mark == "`" then Cons(Sym("+internal-backquote"), x)
    else if mark == ",@" then Cons(Sym("+internal-comma-atsign"), x)
    else if mark == ",." then Cons(Sym("+internal-comma-dot"), x)
    else Cons(Sym("+internal-comma"), x)
  }

  /** A mark in front of a printed object: a comma alone is not followed by the character that would make it another mark. */
  predicate IsMark(mark: string, text: string) {
    || mark == "'" || mark == "`" || mark == ",@" || mark == ",."
    || (mark == "," && (text == "" || (text[0] != '@' && text[0] != '.')))
  }

  /** An object behind a quote, a backquote or a comma reads as the list the evaluator knows for it. */
  lemma QuotedReads(mark: string, x: Obj)
    requires Printable(x) && IsMark(mark, Show(x))
    ensures Read(mark + Show(x), 0) == Got(Quoted(mark, x), |mark + Show(x)|)
  {
    var s, p: nat := mark + Show(x), |mark|;
    AtShown(mark, x);
    ReadsBack(x, s, p);
    assert Asked(0, (p, x));
    assert Read(s, p) == Got(x, |s|);
    FirstShown(x);
    assert s[p] == Show(x)[0];
    if mark == "'" {
      QuoteReads(s, x, |s|);
    } else if mark == "`" {
      BackquoteReads(s, x, |s|);
    } else if mark == "," {
      CommaReads(s, "+internal-comma", 1, x, |s|);
    } else {
      assert s[1] == mark[1];
      CommaReads(s, if mark == ",@" then "+internal-comma-atsign" else "+internal-comma-dot", 2, x, |s|);
    }
  }

  lemma QuoteReads(s: string, x: Obj, q: nat)
    requires s != "" && s[0] == '\'' && Read(s, 1) == Got(x, q)
    ensures Read(s, 0) == Got(Cons(Sym("quote"), Cons(x, Nil)), q)
  {
    assert FlushWs(s, 0, false) == 0;
  }

  lemma BackquoteReads(s: string, x: Obj, q: nat)
    requires s != "" && s[0] == '`' && Read(s, 1) == Got(x, q)
    ensures Read(s, 0) == Got(Cons(Sym("+internal-backquote"), x), q)
  {
    PrefixedIs("+internal-backquote", s, 1, x, q);
    assert FlushWs(s, 0, false) == 0;
  }

  lemma CommaReads(s: string, name: string, p: nat, x: Obj, q: nat)
    requires |s| > 1 && s[0] == ',' && p <= |s| && Read(s, p) == Got(x, q)
    requires if s[1] == '@' then name == "+internal-comma-atsign" && p == 2
             else if s[1] == '.' then name == "+internal-comma-dot" && p == 2
             else name == "+internal-comma" && p == 1
    ensures Read(s, 0) == Got(Cons(Sym(name), x), q)
  {
    PrefixedIs(name, s, p, x, q);
    assert FlushWs(s, 0, false) == 0;
    if s[1] == '@' {
      assert Read(s, 0) == Prefixed("+internal-comma-atsign", s, 2);
    } else if s[1] == '.' {
      assert Read(s, 0) == Prefixed("+internal-comma-dot", s, 2);
    } else {
      assert Read(s, 0) == Prefixed("+internal-comma", s, 1);
    }
  }

  lemma PrefixedIs(name: string, s: string, p: nat, x: Obj, q: nat)
    requires p <= |s| && Read(s, p) == Got(x, q)
    ensures Prefixed(name, s, p) == Got(Cons(Sym(name), x), q)
  {
  }

  lemma AtShown(front: string, x: Obj)
    ensures At(Show(x), front + Show(x), |front|)
  {
    AtConcat(front, Show(x), front + Show(x), 0);
    assert At(front + Show(x), front + Show(x), 0);
  }

  // Spaces, comments and errors

  /** Nothing but spaces, and comments to the end of their lines. */
  ghost predicate Blank(s: string, comment: bool)
    decreases |s|
  {
    if s == "" then !comment
    else if comment then Blank(s[1..], s[0] != '\n')
    else if s[0] == ';' then Blank(s[1..], true)
    else IsSpace(s[0]) && Blank(s[1..], false)
  }

  lemma {:induction false} BlankSkipped(front: string, s: string, p: nat, comment: bool)
    requires Blank(front, comment) && At(front, s, p)
    ensures FlushWs(s, p, comment) == FlushWs(s, p + |front|, false)
    decreases |front|
  {
    if front != "" {
      CharAt(front, s, p, 0);
      var rest := front[1..];
      assert At(rest, s, p + 1) by {
        assert forall i :: 0 <= i < |rest| ==> rest[i] == front[i + 1] && s[p + (i + 1)] == front[i + 1];
      }
      BlankSkipped(rest, s, p + 1, if comment then front[0] != '\n' else front[0] == ';');
    }
  }

  /** An object with spaces and comments in front reads as without. */
  lemma BlankReads(front: string, x: Obj)
    requires Printable(x) && Blank(front, false)
    ensures Read(front + Show(x), 0) == Got(x, |front + Show(x)|)
  {
    var s, p: nat := front + Show(x), |front|;
    AtShown(front, x);
    assert At(front, s, 0);
    BlankSkipped(front, s, 0, false);
    ReadsBack(x, s, p);
    assert Asked(0, (p, x));
    FirstShown(x);
    assert s[p] == Show(x)[0];
    ReadsOn(s, 0, p);
  }

  /** Reading starts at the first character that counts. */
  lemma ReadsOn(s: string, p: nat, k: nat)
    requires p <= k < |s| && FlushWs(s, p, false) == FlushWs(s, k, false)
    ensures Read(s, p) == Read(s, k)
  {
  }

  /** What is not an object: nothing, a closing parenthesis, a list without one. */
  lemma NotObjects(front: string)
    requires Blank(front, false)
    ensures Read(front, 0) == Failed(EofInRead)
    ensures Read(front + ")", 0) == Failed(UnexpectedParen)
    ensures Read(front + "(", 0) == Failed(EofInList)
  {
    assert At(front, front, 0) && At(front, front + ")", 0) && At(front, front + "(", 0);
    BlankSkipped(front, front, 0, false);
    BlankSkipped(front, front + ")", 0, false);
    BlankSkipped(front, front + "(", 0, false);
    assert (front + ")")[|front|] == ')' && (front + "(")[|front|] == '(';
  }

  // Tokens

  /** What ends a token: a space, tab or line end, which is used up, or one of ( ) ' ` , ; " and NUL, which is not. */
  lemma TokenEnds(c: char)
    ensures c == ' ' || 9 <= c as int <= 13 ==> Read("a" + [c], 0) == Got(Sym("a"), 2)
    ensures c in "()'`,;\"\0" ==> Read("a" + [c], 0) == Got(Sym("a"), 1)
    ensures c != ' ' && !(9 <= c as int <= 13) && c !in "()'`,;\"\0" ==> Read("a" + [c], 0) == Got(Sym("a" + [c]), 2)
  {
    var s := "a" + [c];
    DelimitersAre(c);
    assert FlushWs(s, 0, false) == 0 && Read(s, 0) == ReadToken(s, 0);
    if IsSpace(c) || IsDelimiter(c) {
      assert TokenEnd(s, 1) == 1 && s[0..1] == "a";
      assert !IsNumber("a");
    } else {
      assert TokenEnd(s, 1) == 2 && s[0..2] == s;
      assert !IsNumber(s);
    }
  }

  lemma DelimitersAre(c: char)
    ensures IsDelimiter(c) <==> c in "()'`,;\"\0"
  {
    var ds := "()'`,;\"\0";
    assert ds[0] == '(' && ds[1] == ')' && ds[2] == '\'' && ds[3] == '`' && ds[4] == ',' && ds[5] == ';' && ds[6] == '"' && ds[7] == '\0';
  }

  predicate DigitsFromTo(s: string, i: nat, j: nat) {
    i <= j <= |s| && forall m :: i <= m < j ==> '0' <= s[m] <= '9'
  }

  /** An e, perhaps a sign, and digits to the end. */
  predicate ExponentAt(s: string, k: nat) {
    k + 1 < |s| && s[k] == 'e' &&
      var q := if s[k + 1] == '-' || s[k + 1] == '+' then k + 2 else k + 1;
      q < |s| && DigitsFromTo(s, q, |s|)
  }

  /** Digits behind a minus sign or none, up to j; perhaps a point and digits, up to k; one digit at least; perhaps an exponent. */
  predicate NumeralAt(s: string, j: nat, k: nat) {
    var i := if s != "" && s[0] == '-' then 1 else 0;
    && DigitsFromTo(s, i, j) && j <= k <= |s|
    && (j < k ==> s[j] == '.' && DigitsFromTo(s, j + 1, k)) && (i < j || j + 1 < k)
    && (k < |s| ==> ExponentAt(s, k))
  }

  lemma {:induction false} SkipsTo(s: string, p: nat, e: nat)
    requires p <= e <= |s| && (forall i :: p <= i < e ==> IsDigit(s[i])) && (e == |s| || !IsDigit(s[e]))
    ensures SkipDigits(s, p) == e
    decreases e - p
  {
    if p < e {
      SkipsTo(s, p + 1, e);
    }
  }

  lemma {:induction false} Skipped(s: string, p: nat)
    requires p <= |s|
    ensures forall i :: p <= i < SkipDigits(s, p) ==> IsDigit(s[i])
    decreases |s| - p
  {
    if p < |s| && IsDigit(s[p]) {
      Skipped(s, p + 1);
    }
  }

  /** The reader's test, which runs along the token, takes what is put together so, ... */
  lemma NumeralIsNumber(s: string, j: nat, k: nat)
    requires NumeralAt(s, j, k)
    ensures IsNumber(s)
  {
    var i := if s != "" && s[0] == '-' then 1 else 0;
    SkipsTo(s, i, j);
    if j < k {
      SkipsTo(s, j + 1, k);
    }
    assert Mantissa(s) == (k, true);
    if k < |s| {
      var q := if s[k + 1] == '-' || s[k + 1] == '+' then k + 2 else k + 1;
      SkipsTo(s, q + 1, |s|);
    }
  }

  /** ... and nothing else. */
  lemma NumberIsNumeral(s: string) returns (j: nat, k: nat)
    requires IsNumber(s)
    ensures NumeralAt(s, j, k)
  {
    var i := if s != "" && s[0] == '-' then 1 else 0;
    j := SkipDigits(s, i);
    Skipped(s, i);
    k := Mantissa(s).0;
    if j < |s| && s[j] == '.' {
      Skipped(s, j + 1);
    }
    if k < |s| {
      var q := if k + 1 < |s| && (s[k + 1] == '-' || s[k + 1] == '+') then k + 2 else k + 1;
      Skipped(s, q + 1);
    }
  }
}
