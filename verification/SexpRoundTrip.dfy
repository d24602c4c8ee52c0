/** What is printed is read back (src/lib/siod/slib.c). */
module SexpRoundTrip {

  import opened Sealed
  import opened Strings
  import opened SexpText

  /** A name that can stand as a token: read, it is that symbol again. */
  predicate SafeName(name: string) {
    && 0 < |name| < TKBUFFERN
    && (forall i :: 0 <= i < |name| ==> !IsSpace(name[i]) && !IsDelimiter(name[i]))
    && name[0] != '#'
    && !IsNumber(name)
  }

  /** Objects made of nil, conses, whole numbers that a double holds exactly, and symbols that can stand as tokens, the dot of dotted lists excepted. */
  predicate Printable(x: Obj) {
    match x
    case Nil => true
    case Cons(a, d) => Printable(a) && Printable(d)
    case Num(n) => Exact(n)
    case Flo(_) => false
    case Sym(name) => SafeName(name) && name != "."
  }

  predicate IsAtom(x: Obj) {
    x.Num? || x.Flo? || x.Sym?
  }

  // Numbers

  lemma {:induction false} DigitsAreDigits(n: nat)
    ensures AllDigits(Digits(n)) && Value(Digits(n)) == n
  {
    if n < 10 {
      assert Digits(n)[..0] == "";
    } else {
      DigitsAreDigits(n / 10);
      var s := Digits(n);
      assert s[..|s| - 1] == Digits(n / 10);
    }
  }

  lemma {:induction false} SkipAllDigits(s: string, p: nat)
    requires p <= |s| && forall i :: p <= i < |s| ==> IsDigit(s[i])
    ensures SkipDigits(s, p) == |s|
    decreases |s| - p
  {
    if p < |s| {
      SkipAllDigits(s, p + 1);
    }
  }

  /** The digits of a number are read as that number. */
  lemma DecimalReads(n: int)
    requires Exact(n)
    ensures TokenObj(Decimal(n)) == Num(n)
    ensures forall i :: 0 <= i < |Decimal(n)| ==> IsDigit(Decimal(n)[i]) || (i == 0 && Decimal(n)[i] == '-')
  {
    var m := if n < 0 then -n else n;
    var s := Decimal(n);
    DigitsAreDigits(m);
    if n < 0 {
      assert s[1..] == Digits(m);
      forall i | 1 <= i < |s| ensures IsDigit(s[i]) {
        assert s[i] == Digits(m)[i - 1];
      }
      SkipAllDigits(s, 1);
    } else {
      assert IsDigit(s[0]);
      SkipAllDigits(s, 0);
    }
  }

  // Tokens

  lemma {:induction false} TokenEndIs(s: string, p: nat, e: nat)
    requires p <= e <= |s| && forall i :: p <= i < e ==> !IsSpace(s[i]) && !IsDelimiter(s[i])
    requires e == |s| || IsSpace(s[e]) || IsDelimiter(s[e])
    ensures TokenEnd(s, p) == e
    decreases e - p
  {
    if p < e {
      TokenEndIs(s, p + 1, e);
    }
  }

  /** A character a token can start with. */
  predicate Starts(c: char) {
    !IsSpace(c) && !IsDelimiter(c) && c != '#'
  }

  /** From p on, x is read, up to q. */
  ghost predicate Reads(s: string, p: nat, x: Obj, q: nat) {
    p <= |s| && forall k: int :: Asked(k, (p, x)) ==> Read(s, p) == Got(x, q)
  }

  /** From p on, x is read as the rest of a list, up to q. */
  ghost predicate ReadsRest(s: string, p: nat, x: Obj, q: nat) {
    p <= |s| && forall k: int :: Asked(k, (p, x)) ==> ReadList(s, p) == Got(x, q)
  }

  lemma TokenReads(w: string, s: string, p: nat)
    requires 0 < |w| < TKBUFFERN && At(w, s, p) && Starts(w[0])
    requires forall i :: 0 <= i < |w| ==> !IsSpace(w[i]) && !IsDelimiter(w[i])
    requires var e := p + |w|; e == |s| || IsSpace(s[e]) || IsDelimiter(s[e])
    ensures Reads(s, p, TokenObj(w), Past(s, p + |w|))
  {
    var e := p + |w|;
    assert s[p] == w[0];
    forall i | p <= i < e ensures !IsSpace(s[i]) && !IsDelimiter(s[i]) {
      assert s[p + (i - p)] == w[i - p];
    }
    TokenEndIs(s, p + 1, e);
    assert s[p..e] == w;
    assert FlushWs(s, p, false) == p;
  }

  lemma NilReads(s: string, p: nat)
    requires At("()", s, p)
    ensures Reads(s, p, Nil, p + 2)
  {
    CharAt("()", s, p, 0);
    CharAt("()", s, p, 1);
  }

  lemma ParenReads(s: string, p: nat, x: Obj, q: nat)
    requires p < |s| && s[p] == '(' && ReadsRest(s, p + 1, x, q)
    ensures Reads(s, p, x, q)
  {
    var next: nat := p + 1;
    assert Asked(0, (next, x));
  }

  /** What may stand before an element or the end of a list: nothing, or a space. */
  predicate Skips(s: string, p: nat, k: nat) {
    p <= k < |s| && !IsSpace(s[k]) && s[k] != ';' && (p == k || (p + 1 == k && s[p] == ' '))
  }

  lemma EndReads(s: string, p: nat)
    requires p < |s| && s[p] == ')'
    ensures ReadsRest(s, p, Nil, p + 1)
  {
  }

  lemma ElementReads(s: string, p: nat, k: nat, x: Obj, q: nat, rest: Obj, q1: nat)
    requires Skips(s, p, k) && s[k] != ')' && Reads(s, k, x, q) && x != Sym(".") && ReadsRest(s, q, rest, q1)
    ensures ReadsRest(s, p, Cons(x, rest), q1)
  {
    assert Asked(0, (k, x)) && Asked(0, (q, rest));
    assert FlushWs(s, p, false) == FlushWs(s, k, false) == k;
  }

  lemma DotReads(s: string, p: nat, k: nat, x: Obj, q: nat)
    requires Skips(s, p, k) && k + 2 < |s| && s[k] == '.' && s[k + 1] == ' '
    requires Reads(s, k + 2, x, q) && q < |s| && s[q] == ')'
    ensures ReadsRest(s, p, x, q + 1)
  {
    TokenReads(".", s, k);
    assert Asked(0, (k, Sym(".")));
    var next: nat := k + 2;
    assert Asked(0, (next, x));
    assert FlushWs(s, p, false) == FlushWs(s, k, false) == k;
  }

  function TenTo(k: nat): nat {
    if k == 0 then 1 else 10 * TenTo(k - 1)
  }

  lemma {:induction false} DigitsFit(n: nat, k: nat)
    requires n < TenTo(k) && k > 0
    ensures |Digits(n)| <= k
  {
    if n >= 10 {
      DigitsFit(n / 10, k - 1);
    }
  }

  lemma DecimalFits(n: int)
    requires Exact(n)
    ensures |Decimal(n)| < TKBUFFERN
  {
    assert TenTo(4) == 10000;
    assert TenTo(8) == 100000000;
    assert TenTo(12) == 1000000000000;
    assert TenTo(16) == 10000000000000000;
    DigitsFit(if n < 0 then -n else n, 16);
  }

  lemma NumberReads(n: int, s: string, p: nat)
    requires Exact(n) && At(Decimal(n), s, p)
    requires var e := p + |Decimal(n)|; e == |s| || IsSpace(s[e]) || IsDelimiter(s[e])
    ensures Reads(s, p, Num(n), Past(s, p + |Decimal(n)|))
  {
    DecimalReads(n);
    DecimalFits(n);
    TokenReads(Decimal(n), s, p);
  }

  lemma AtomReads(x: Obj, s: string, p: nat)
    requires Printable(x) && IsAtom(x) && At(Show(x), s, p)
    requires var e := p + |Show(x)|; e == |s| || IsSpace(s[e]) || IsDelimiter(s[e])
    ensures Reads(s, p, x, Past(s, p + |Show(x)|))
  {
    if x.Num? {
      NumberReads(x.n, s, p);
    } else {
      TokenReads(x.name, s, p);
    }
  }

  // Lists

  /** The first character of what is printed is neither space, nor a comment, nor a closing paren. */
  lemma FirstShown(x: Obj)
    requires Printable(x)
    ensures Show(x) != "" && !IsSpace(Show(x)[0]) && Show(x)[0] != ';' && Show(x)[0] != ')'
  {
    if x.Num? {
      DecimalReads(x.n);
    }
  }

  /** Where the reader is behind a printed object. */
  function Behind(x: Obj, s: string, e: nat): nat
    requires e <= |s|
  {
    if IsAtom(x) then Past(s, e) else e
  }

  lemma {:induction false} ReadsBack(x: Obj, s: string, p: nat)
    requires Printable(x) && At(Show(x), s, p)
    requires var e := p + |Show(x)|; IsAtom(x) ==> e == |s| || IsSpace(s[e]) || IsDelimiter(s[e])
    ensures Reads(s, p, x, Behind(x, s, p + |Show(x)|))
    decreases x, 1
  {
    match x
    case Nil =>
      NilReads(s, p);
    case Cons(a, d) =>
      AtConcat("(" + Show(a), ShowRest(d), s, p);
      AtConcat("(", Show(a), s, p);
      CharAt("(", s, p, 0);
      ListReadsBack(a, d, s, p + 1, p + 1);
      ParenReads(s, p, x, p + 1 + |Show(a)| + |ShowRest(d)|);
    case _ =>
      AtomReads(x, s, p);
  }

  /** An element and the rest of its list. */
  lemma {:induction false} ListReadsBack(a: Obj, d: Obj, s: string, q: nat, p: nat)
    requires Printable(a) && Printable(d) && At(Show(a), s, p) && At(ShowRest(d), s, p + |Show(a)|)
    requires q == p || (q + 1 == p && q < |s| && s[q] == ' ')
    ensures ReadsRest(s, q, Cons(a, d), p + |Show(a)| + |ShowRest(d)|)
    decreases Cons(a, d), 0
  {
    var e := p + |Show(a)|;
    FirstShown(a);
    CharAt(Show(a), s, p, 0);
    RestStarts(d, s, e);
    ReadsBack(a, s, p);
    RestReadsBack(d, s, e, Behind(a, s, e));
    ElementReads(s, q, p, a, Behind(a, s, e), d, e + |ShowRest(d)|);
  }

  /** An element is followed by a space or a paren. */
  lemma RestStarts(d: Obj, s: string, e: nat)
    requires At(ShowRest(d), s, e)
    ensures e < |s| && (d == Nil ==> s[e] == ')') && (d != Nil ==> s[e] == ' ')
  {
    assert ShowRest(d)[0] == if d == Nil then ')' else ' ';
    CharAt(ShowRest(d), s, e, 0);
  }

  lemma {:induction false} RestReadsBack(d: Obj, s: string, e: nat, q: nat)
    requires Printable(d) && At(ShowRest(d), s, e) && e <= q <= |s|
    requires q == e || (q == e + 1 && s[e] == ' ')
    ensures ReadsRest(s, q, d, e + |ShowRest(d)|)
    decreases d, 1
  {
    RestStarts(d, s, e);
    match d
    case Nil =>
      EndReads(s, e);
    case Cons(a, rest) =>
      AtConcat(" " + Show(a), ShowRest(rest), s, e);
      AtConcat(" ", Show(a), s, e);
      ListReadsBack(a, rest, s, q, e + 1);
    case _ =>
      TailReads(d, s, e, q);
  }

  /** The tail of a dotted list. */
  lemma TailReads(d: Obj, s: string, e: nat, q: nat)
    requires Printable(d) && IsAtom(d) && At(ShowRest(d), s, e) && e <= q <= |s|
    requires q == e || (q == e + 1 && s[e] == ' ')
    ensures ReadsRest(s, q, d, e + |ShowRest(d)|)
  {
    AtConcat(" . " + Show(d), ")", s, e);
    AtConcat(" . ", Show(d), s, e);
    CharAt(" . ", s, e, 0);
    CharAt(" . ", s, e, 1);
    CharAt(" . ", s, e, 2);
    var end := e + 3 + |Show(d)|;
    CharAt(")", s, end, 0);
    AtomReads(d, s, e + 3);
    DotReads(s, q, e + 1, d, end);
  }

  /** Printing an object and reading the text gives the object back, and uses the text up. */
  lemma PrintReadRoundTrip(x: Obj)
    requires Printable(x)
    ensures Read(Show(x), 0) == Got(x, |Show(x)|)
  {
    ReadsBack(x, Show(x), 0);
    var start: nat := 0;
    assert Asked(0, (start, x));
  }

  // Which symbols survive

  lemma {:induction false} TokenEndStops(s: string, p: nat)
    requires p <= |s| && TokenEnd(s, p) == |s|
    ensures forall i :: p <= i < |s| ==> !IsSpace(s[i]) && !IsDelimiter(s[i])
    decreases |s| - p
  {
    if p < |s| {
      TokenEndStops(s, p + 1);
    }
  }

  /** A symbol is never longer than the text it was read from, and shorter when anything else was there. */
  lemma {:induction false} SymbolWithin(s: string, p: nat)
    requires p <= |s| && Read(s, p).Got? && Read(s, p).obj.Sym?
    ensures var r := Read(s, p);
      |r.obj.name| <= r.pos - p && (|r.obj.name| == r.pos - p ==> p < |s| && Starts(s[p]) && r == ReadToken(s, p))
    decreases |s| - p, 0
  {
    var k := FlushWs(s, p, false);
    FlushStops(s, p, false);
    if s[k] == '(' {
      SymbolInList(s, k + 1);
    }
  }

  lemma {:induction false} FlushStops(s: string, p: nat, comment: bool)
    requires p <= |s|
    ensures var k := FlushWs(s, p, comment); k < |s| ==> !IsSpace(s[k]) && s[k] != ';'
    decreases |s| - p
  {
    if p < |s| && (comment || s[p] == ';' || IsSpace(s[p])) {
      FlushStops(s, p + 1, if comment then s[p] != '\n' else s[p] == ';');
    }
  }

  lemma {:induction false} SymbolInList(s: string, p: nat)
    requires p <= |s| && ReadList(s, p).Got? && ReadList(s, p).obj.Sym?
    ensures |ReadList(s, p).obj.name| < ReadList(s, p).pos - p
    decreases |s| - p, 1
  {
    var k := FlushWs(s, p, false);
    var q := Read(s, k).pos;
    SymbolWithin(s, q);
  }

  /** A symbol is read from its own name if and only if the name can stand as a token. */
  lemma SymbolSurvives(name: string)
    ensures Read(name, 0) == Got(Sym(name), |name|) <==> SafeName(name)
  {
    if SafeName(name) {
      TokenReads(name, name, 0);
      var start: nat := 0;
      assert Asked(0, (start, Sym(name)));
    } else if Read(name, 0) == Got(Sym(name), |name|) {
      SymbolWithin(name, 0);
      TokenEndStops(name, 1);
    }
  }
}
