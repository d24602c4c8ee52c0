/** What an S-expression is in text: printing and reading (src/lib/siod/slib.c). */
module SexpText {

  import opened Strings

  /** A value without closures, strings and arrays. Num is a whole number that a double holds exactly; the text of any
      other number is kept as it was read. */
  datatype Obj = Nil | Cons(car: Obj, cdr: Obj) | Num(n: int) | Flo(text: string) | Sym(name: string)

  datatype Why = EofInRead | EofInList | UnexpectedParen | MissingParen | TokenTooLong | StringOrSharp

  datatype Outcome = Got(obj: Obj, pos: nat) | Failed(why: Why)

  const TKBUFFERN := 5120

  // Numbers go through a double both ways, which holds every whole number up to 2^53.
  const EXACT := 9007199254740992

  predicate Exact(n: int) {
    -EXACT <= n <= EXACT
  }

  // Printing

  function Digits(n: nat): (s: string)
    ensures |s| > 0
  {
    if n < 10 then ['0' + n as char] else Digits(n / 10) + ['0' + (n % 10) as char]
  }

  /** sprintf with %ld. */
  function Decimal(n: int): string {
    if n < 0 then "-" + Digits(-n) else Digits(n)
  }

  function Show(x: Obj): string
    decreases x, 0
  {
    match x
    case Nil => "()"
    case Num(n) => Decimal(n)
    case Flo(text) => text
    case Sym(name) => name
    case Cons(a, d) => "(" + Show(a) + ShowRest(d)
  }

  /** The rest of a list behind its first element. */
  function ShowRest(x: Obj): string
    decreases x, 1
  {
    match x
    case Nil => ")"
    case Cons(a, d) => " " + Show(a) + ShowRest(d)
    case _ => " . " + Show(x) + ")"
  }

  class Printer {
    var out: string

    method Puts(s: string)
      modifies this
      ensures out == old(out) + s
    {
      out := out + s;
    }

    /** lprin1g: recursion on the elements, a loop on the list. */
    method Lprin1g(exp: Obj)
      modifies this
      ensures out == old(out) + Show(exp)
      decreases exp
    {
      match exp
      case Nil => Puts("()");
      case Num(n) => Puts(Decimal(n));
      case Flo(text) => Puts(text);
      case Sym(name) => Puts(name);
      case Cons(a, d) =>
        Puts("(");
        Lprin1g(a);
        var tmp := d;
        while tmp.Cons?
          invariant tmp == d || tmp < d
          invariant out + ShowRest(tmp) == old(out) + Show(exp)
          decreases tmp
        {
          ghost var before := out;
          Puts(" ");
          Lprin1g(tmp.car);
          Joined(before, " ", Show(tmp.car), ShowRest(tmp.cdr));
          tmp := tmp.cdr;
        }
        ghost var before := out;
        if tmp != Nil {
          Puts(" . ");
          Lprin1g(tmp);
        }
        Puts(")");
    }
  }

  lemma Joined(a: string, b: string, c: string, d: string)
    ensures a + (b + c + d) == a + b + c + d
  {
  }

  // Reading

  predicate IsSpace(c: char) {
    c == ' ' || ('\t' <= c <= '\r')
  }

  predicate IsDigit(c: char) {
    '0' <= c <= '9'
  }

  /** What ends a token; strchr also finds the NUL that ends its string. */
  predicate IsDelimiter(c: char) {
    c == '(' || c == ')' || c == '\'' || c == '`' || c == ',' || c == ';' || c == '"' || c == '\0'
  }

  /** The first character that is neither space nor in a comment, or the end. */
  function FlushWs(s: string, p: nat, comment: bool): (q: nat)
    requires p <= |s|
    ensures p <= q <= |s|
    decreases |s| - p
  {
    if p == |s| then p
    else if comment then FlushWs(s, p + 1, s[p] != '\n')
    else if s[p] == ';' then FlushWs(s, p + 1, true)
    else if IsSpace(s[p]) then FlushWs(s, p + 1, false)
    else p
  }

  function TokenEnd(s: string, p: nat): (q: nat)
    requires p <= |s|
    ensures p <= q <= |s|
    decreases |s| - p
  {
    if p == |s| || IsSpace(s[p]) || IsDelimiter(s[p]) then p else TokenEnd(s, p + 1)
  }

  function SkipDigits(s: string, p: nat): (q: nat)
    requires p <= |s|
    ensures p <= q <= |s|
    decreases |s| - p
  {
    if p < |s| && IsDigit(s[p]) then SkipDigits(s, p + 1) else p
  }

  /** Where the digits, and a point with more digits, end; and whether there were any. */
  function Mantissa(s: string): (r: (nat, bool))
    ensures r.0 <= |s|
  {
    var a := if s != "" && s[0] == '-' then 1 else 0;
    var b := SkipDigits(s, a);
    if b < |s| && s[b] == '.' then
      var c := SkipDigits(s, b + 1);
      (c, b > a || c > b + 1)
    else (b, b > a)
  }

  /** The token is a number: a mantissa with a digit, and perhaps an exponent. */
  predicate IsNumber(s: string) {
    var (p, adigit) := Mantissa(s);
    adigit &&
    if p < |s| && s[p] == 'e' then
      var q := if p + 1 < |s| && (s[p + 1] == '-' || s[p + 1] == '+') then p + 2 else p + 1;
      q < |s| && IsDigit(s[q]) && SkipDigits(s, q + 1) == |s|
    else p == |s|
  }

  predicate AllDigits(s: string) {
    forall i :: 0 <= i < |s| ==> IsDigit(s[i])
  }

  function Value(s: string): nat
    requires AllDigits(s)
  {
    if s == "" then 0 else Value(s[..|s| - 1]) * 10 + (s[|s| - 1] as int - '0' as int)
  }

  predicate IsInteger(s: string) {
    var digits := if s != "" && s[0] == '-' then s[1..] else s;
    digits != "" && AllDigits(digits)
  }

  function Integer(s: string): int
    requires IsInteger(s)
  {
    if s[0] == '-' then 0 - Value(s[1..]) else Value(s)
  }

  /** lreadtk: a number, or else a symbol. */
  function TokenObj(s: string): Obj {
    if !IsNumber(s) then Sym(s)
    else if IsInteger(s) && Exact(Integer(s)) then Num(Integer(s))
    else Flo(s)
  }

  /** What of a buffer is before its first NUL; behind its first character a token has none. */
  function CText(buffer: string): string {
    if buffer != "" && buffer[0] == '\0' then "" else buffer
  }

  /** A token that starts at p; the space behind it is read too. */
  function ReadToken(s: string, p: nat): Outcome
    requires p < |s|
  {
    var e := TokenEnd(s, p + 1);
    if e - p < TKBUFFERN then Got(TokenObj(CText(s[p..e])), Past(s, e)) else Failed(TokenTooLong)
  }

  function Past(s: string, e: nat): (q: nat)
    requires e <= |s|
    ensures e <= q <= |s|
  {
    if e < |s| && IsSpace(s[e]) then e + 1 else e
  }

  function Read(s: string, p: nat): (r: Outcome)
    requires p <= |s|
    ensures r.Got? ==> p < r.pos <= |s|
    decreases |s| - p, 0
  {
    var k := FlushWs(s, p, false);
    if k == |s| then Failed(EofInRead)
    else match s[k]
      case '(' => ReadList(s, k + 1)
      case ')' => Failed(UnexpectedParen)
      case '\'' => (match Read(s, k + 1) case Got(x, q) => Got(Cons(Sym("quote"), Cons(x, Nil)), q) case f => f)
      case '`' => Prefixed("+internal-backquote", s, k + 1)
      case ',' =>
        if k + 1 < |s| && s[k + 1] == '@' then Prefixed("+internal-comma-atsign", s, k + 2)
        else if k + 1 < |s| && s[k + 1] == '.' then Prefixed("+internal-comma-dot", s, k + 2)
        else Prefixed("+internal-comma", s, k + 1)
      case '"' => Failed(StringOrSharp)
      case '#' => Failed(StringOrSharp)
      case _ => ReadToken(s, k)
  }

  function Prefixed(name: string, s: string, p: nat): (r: Outcome)
    requires p <= |s|
    ensures r.Got? ==> p < r.pos <= |s|
    decreases |s| - p, 1
  {
    match Read(s, p) case Got(x, q) => Got(Cons(Sym(name), x), q) case f => f
  }

  /** The rest of a list, from behind its paren or an element. */
  function ReadList(s: string, p: nat): (r: Outcome)
    requires p <= |s|
    ensures r.Got? ==> p < r.pos <= |s|
    decreases |s| - p, 1
  {
    var k := FlushWs(s, p, false);
    if k == |s| then Failed(EofInList)
    else if s[k] == ')' then Got(Nil, k + 1)
    else match Read(s, k)
      case Failed(why) => Failed(why)
      case Got(x, q) =>
        if x == Sym(".") then
          match Read(s, q)
          case Failed(why) => Failed(why)
          case Got(tail, q1) =>
            var c := FlushWs(s, q1, false);
            if c == |s| then Failed(EofInList)
            else if s[c] != ')' then Failed(MissingParen)
            else Got(tail, c + 1)
        else
          match ReadList(s, q)
          case Failed(why) => Failed(why)
          case Got(rest, q1) => Got(Cons(x, rest), q1)
  }

  class Reader {
    const text: string
    var pos: nat

    constructor (text: string)
      ensures this.text == text && pos == 0
    {
      this.text := text;
      pos := 0;
    }

    /** The next character; at the end there is none, and nothing to put back. */
    method GetC() returns (eof: bool, c: char)
      requires pos <= |text|
      modifies this`pos
      ensures eof == (old(pos) == |text|) && pos == (if eof then old(pos) else old(pos) + 1) && pos <= |text|
      ensures !eof ==> c == text[old(pos)]
    {
      eof, c := pos == |text|, '\0';
      if !eof {
        c := text[pos];
        pos := pos + 1;
      }
    }

    method UngetC()
      requires pos > 0
      modifies this`pos
      ensures pos == old(pos) - 1
    {
      pos := pos - 1;
    }

    method FlushWsAndGet() returns (eof: bool, c: char)
      requires pos <= |text|
      modifies this`pos
      ensures var k := FlushWs(text, old(pos), false);
        && eof == (k == |text|) && pos == (if eof then k else k + 1) && (!eof ==> c == text[k])
    {
      var comment := false;
      while true
        invariant old(pos) <= pos <= |text| && FlushWs(text, old(pos), false) == FlushWs(text, pos, comment)
        decreases |text| - pos
      {
        eof, c := GetC();
        if eof {
          return;
        }
        if comment {
          if c == '\n' {
            comment := false;
          }
        } else if c == ';' {
          comment := true;
        } else if !IsSpace(c) {
          return;
        }
      }
    }

    /** lreadr: one object. */
    method Lreadr() returns (r: Outcome)
      requires pos <= |text|
      modifies this`pos
      ensures pos <= |text| && Same(r, Read(text, old(pos)), pos)
      decreases |text| - pos, 0
    {
      var start := pos;
      var eof, c := FlushWsAndGet();
      if eof {
        return Failed(EofInRead);
      }
      match c
      case '(' =>
        r := Lreadparen();
      case ')' =>
        r := Failed(UnexpectedParen);
      case '\'' =>
        r := Lreadr();
        if r.Got? {
          r := Got(Cons(Sym("quote"), Cons(r.obj, Nil)), pos);
        }
      case '`' =>
        r := LreadPrefixed("+internal-backquote");
      case ',' =>
        var name := "+internal-comma";
        eof, c := GetC();
        if !eof && c == '@' {
          name := "+internal-comma-atsign";
        } else if !eof && c == '.' {
          name := "+internal-comma-dot";
        } else if !eof {
          UngetC();
        }
        r := LreadPrefixed(name);
      case '"' =>
        r := Failed(StringOrSharp);
      case '#' =>
        r := Failed(StringOrSharp);
      case _ =>
        r := LreadToken(c);
    }

    method LreadPrefixed(name: string) returns (r: Outcome)
      requires pos <= |text|
      modifies this`pos
      ensures pos <= |text| && Same(r, Prefixed(name, text, old(pos)), pos)
      decreases |text| - pos, 1
    {
      r := Lreadr();
      if r.Got? {
        r := Got(Cons(Sym(name), r.obj), pos);
      }
    }

    /** The loop that fills the token buffer. */
    method LreadToken(first: char) returns (r: Outcome)
      requires 0 < pos <= |text| && first == text[pos - 1]
      modifies this`pos
      ensures pos <= |text| && Same(r, ReadToken(text, old(pos) - 1), pos)
    {
      ghost var start := pos - 1;
      var buffer := [first];
      var j := 1;
      while j < TKBUFFERN
        invariant 1 <= j <= TKBUFFERN && start + j == pos <= |text| && buffer == text[start..pos]
        invariant TokenEnd(text, start + 1) == TokenEnd(text, pos)
      {
        var eof, c := GetC();
        if eof || IsSpace(c) {
          return Got(TokenObj(CText(buffer)), pos);
        }
        if IsDelimiter(c) {
          UngetC();
          return Got(TokenObj(CText(buffer)), pos);
        }
        buffer := buffer + [c];
        j := j + 1;
      }
      r := Failed(TokenTooLong);
    }

    /** lreadparen: the rest of a list. */
    method Lreadparen() returns (r: Outcome)
      requires pos <= |text|
      modifies this`pos
      ensures pos <= |text| && Same(r, ReadList(text, old(pos)), pos)
      decreases |text| - pos, 1
    {
      var eof, c := FlushWsAndGet();
      if eof {
        return Failed(EofInList);
      }
      if c == ')' {
        return Got(Nil, pos);
      }
      UngetC();
      r := Lreadr();
      if r.Failed? {
        return;
      }
      if r.obj == Sym(".") {
        r := Lreadr();
        if r.Failed? {
          return;
        }
        eof, c := FlushWsAndGet();
        if eof {
          return Failed(EofInList);
        }
        return if c != ')' then Failed(MissingParen) else Got(r.obj, pos);
      }
      var rest := Lreadparen();
      r := if rest.Got? then Got(Cons(r.obj, rest.obj), pos) else rest;
    }
  }

  /** A result is the one wanted, and the place read up to is its. */
  predicate Same(r: Outcome, want: Outcome, pos: nat) {
    r == want && (r.Got? ==> r.pos == pos)
  }
}
