/** The wildcard matcher of the table input method (src/lib/xcintool/strcmp_wild.c). A string is the bytes before its NUL. */
module Wildcard {

  import opened Strings

  /** What next_token can leave in its buffer. */
  datatype Token = Star | Any | Lit(text: string)

  datatype List<T> = Nil | Cons(head: T, tail: List<T>)

  /** The size of the token buffer; it also holds the NUL. */
  const TOK_SIZE := 1024

  predicate IsWild(c: char) {
    c == '*' || c == '?'
  }

  /** Behind the stars and question marks that start at p. */
  function SkipWild(s: string, p: nat): (q: nat)
    requires p <= |s|
    ensures p <= q <= |s|
    decreases |s| - p
  {
    if p < |s| && IsWild(s[p]) then SkipWild(s, p + 1) else p
  }

  /** Behind the plain characters that start at p. */
  function SkipPlain(s: string, p: nat): (q: nat)
    requires p <= |s|
    ensures p <= q <= |s|
    decreases |s| - p
  {
    if p < |s| && !IsWild(s[p]) then SkipPlain(s, p + 1) else p
  }

  function TokenAt(s: string, p: nat): Token
    requires p < |s|
  {
    if s[p] == '*' then Star
    else if s[p] == '?' then Any
    else
      var q := SkipPlain(s, p);
      Lit(s[p..if q - p >= TOK_SIZE then p + TOK_SIZE - 1 else q])
  }

  function NextAt(s: string, p: nat): (q: nat)
    requires p < |s|
    ensures p < q <= |s|
  {
    if s[p] == '*' then SkipWild(s, p + 1) else if s[p] == '?' then p + 1 else SkipPlain(s, p)
  }

  /** The tokens of s from p on. */
  function Tokens(s: string, p: nat): List<Token>
    requires p <= |s|
    decreases |s| - p
  {
    if p == |s| then Nil else Cons(TokenAt(s, p), Tokens(s, NextAt(s, p)))
  }

  method NextToken(s: string, p: nat) returns (ok: bool, tok: Token, q: nat)
    requires p <= |s|
    ensures ok == (p < |s|)
    ensures if ok then tok == TokenAt(s, p) && q == NextAt(s, p) else q == p
  {
    ok, tok, q := p < |s|, Any, p;
    if !ok {
      return;
    }
    if s[p] == '*' {
      q := p + 1;
      while q < |s| && IsWild(s[q])
        invariant p < q <= |s| && SkipWild(s, q) == SkipWild(s, p + 1)
      {
        q := q + 1;
      }
      tok := Star;
    } else if s[p] == '?' {
      q := p + 1;
    } else {
      while q < |s| && !IsWild(s[q])
        invariant p <= q <= |s| && SkipPlain(s, q) == SkipPlain(s, p)
      {
        q := q + 1;
      }
      var len := q - p;
      if len >= TOK_SIZE {
        len := TOK_SIZE - 1;
      }
      tok := Lit(s[p..p + len]);
    }
  }

  // What the comparison computes

  /** strncmp(w, s + c, strlen(w)), as a sign; i characters have been found equal. */
  function Strncmp(w: string, s: string, c: nat, i: nat): (r: int)
    requires i <= |w| && c + i <= |s|
    requires forall j :: 0 <= j < i ==> s[c + j] == w[j]
    ensures r == 0 <==> At(w, s, c)
    ensures -1 <= r <= 1
    decreases |w| - i
  {
    if i == |w| then 0
    else if c + i == |s| then 1
    else if w[i] != s[c + i] then (if w[i] > s[c + i] then 1 else -1)
    else Strncmp(w, s, c, i + 1)
  }

  /** The first place from c on at which w occurs in s, or the end of s. */
  function First(w: string, s: string, c: nat): (k: nat)
    requires c <= |s|
    ensures c <= k <= |s| && (k < |s| ==> k + |w| <= |s|)
    decreases |s| - c
  {
    if c == |s| || At(w, s, c) then c else First(w, s, c + 1)
  }

  lemma {:induction false} FirstOccurs(w: string, s: string, c: nat)
    requires c <= |s|
    ensures First(w, s, c) < |s| ==> At(w, s, First(w, s, c))
    decreases |s| - c
  {
    if c < |s| && !At(w, s, c) {
      FirstOccurs(w, s, c + 1);
    }
  }

  lemma {:induction false} NoneEarlier(w: string, s: string, c: nat, k: nat)
    requires c <= k <= |s| && At(w, s, k)
    ensures First(w, s, c) <= k
    decreases |s| - c
  {
    if c < k {
      NoneEarlier(w, s, c + 1, k);
    }
  }

  /** The characters of the token buffer. */
  function Text(t: Token): string {
    match t
    case Star => "*"
    case Any => "?"
    case Lit(w) => w
  }

  /** The comparison of the tokens with the rest of s, as a sign. */
  function Compare(t: List<Token>, s: string, c: nat): int
    requires c <= |s|
  {
    match t
    case Nil => if c == |s| then 0 else -1
    case Cons(Any, rest) => if c == |s| then 1 else Compare(rest, s, c + 1)
    case Cons(Lit(w), rest) =>
      if c == |s| then 1 else if At(w, s, c) then Compare(rest, s, c + |w|) else Strncmp(w, s, c, 0)
    case Cons(Star, Nil) => 0
    case Cons(Star, Cons(next, rest)) =>
      var w := Text(next);
      var k := First(w, s, c);
      if k < |s| then Compare(rest, s, k + |w|) else 1
  }

  /** The inner loop: the first occurrence of the literal. */
  method Find(w: string, s: string, from: nat) returns (c: nat)
    requires from <= |s|
    ensures c == First(w, s, from)
  {
    c := from;
    while c < |s| && Strncmp(w, s, c, 0) != 0
      invariant from <= c <= |s| && First(w, s, from) == First(w, s, c)
    {
      c := c + 1;
    }
  }

  /** What is left to compare when the tokens from c1 on meet s2 from c2 on, or the result. */
  function Rest(s1: string, c1: nat, s2: string, c2: nat, ret: int): int
    requires c1 <= |s1| && (ret == 0 ==> c2 <= |s2|)
  {
    if ret == 0 then Compare(Tokens(s1, c1), s2, c2) else ret
  }

  /** A star: the literal behind it is searched for, and without one the rest is skipped. */
  method AfterStar(s1: string, start: nat, s2: string, from: nat) returns (ret: int, c1: nat, c2: nat)
    requires start < |s1| && TokenAt(s1, start) == Star && from < |s2|
    ensures start < c1 <= |s1| && (ret == 0 ==> c2 <= |s2|)
    ensures Rest(s1, c1, s2, c2, ret) == Compare(Tokens(s1, start), s2, from)
  {
    ret, c1, c2 := 0, NextAt(s1, start), from;
    var more, lit, after := NextToken(s1, c1);
    if !more {
      while c2 < |s2|
        invariant c2 <= |s2|
      {
        c2 := c2 + 1;
      }
    } else {
      var w := Text(lit);
      c1 := after;
      c2 := Find(w, s2, c2);
      if c2 < |s2| {
        c2 := c2 + |w|;
      } else {
        ret := 1;
      }
    }
  }

  /** With s2 used up, only an empty rest or a last star matches. */
  lemma AtTheEnd(s1: string, c1: nat, s2: string)
    requires c1 <= |s1|
    ensures Compare(Tokens(s1, c1), s2, |s2|) ==
      if c1 == |s1| || (TokenAt(s1, c1) == Star && NextAt(s1, c1) == |s1|) then 0 else 1
  {
  }

  method StrcmpWild(s1: string, s2: string) returns (ret: int)
    ensures ret == Compare(Tokens(s1, 0), s2, 0)
  {
    var c1: nat, c2: nat := 0, 0;
    ret := 0;
    while ret == 0 && c2 < |s2|
      invariant c1 <= |s1| && (ret == 0 ==> c2 <= |s2|)
      invariant Compare(Tokens(s1, 0), s2, 0) == Rest(s1, c1, s2, c2, ret)
      decreases |s1| - c1
    {
      var ok, tok, next := NextToken(s1, c1);
      if !ok {
        assert Compare(Nil, s2, c2) == -1;
        break;
      }
      match tok {
        case Any =>
          c1, c2 := next, c2 + 1;
        case Star =>
          ret, c1, c2 := AfterStar(s1, c1, s2, c2);
        case Lit(w) =>
          ret := Strncmp(w, s2, c2, 0);
          c1, c2 := next, c2 + |w|;
      }
    }
    if ret == 0 {
      if c2 < |s2| {
        ret := -1;
      } else {
        AtTheEnd(s1, c1, s2);
        var ok, tok, next := NextToken(s1, c1);
        if ok {
          var more, _, _ := NextToken(s1, next);
          ret := if tok == Star && !more then 0 else 1;
        }
      }
    }
  }

  // What the comparison means

  /** The rest of s is one of the strings the pattern stands for. */
  ghost predicate Glob(t: List<Token>, s: string, c: nat)
    requires c <= |s|
  {
    match t
    case Nil => c == |s|
    case Cons(Any, rest) => c < |s| && Glob(rest, s, c + 1)
    case Cons(Lit(w), rest) => At(w, s, c) && Glob(rest, s, c + |w|)
    case Cons(Star, rest) => exists k: nat :: c <= k <= |s| && Glob(rest, s, k)
  }

  /** A list next_token can produce: literals are not empty, and a star or a literal swallows what would extend it. */
  predicate WellFormed(t: List<Token>) {
    match t
    case Nil => true
    case Cons(Any, rest) => WellFormed(rest)
    case Cons(Lit(w), rest) => w != "" && (rest.Cons? ==> !rest.head.Lit?) && WellFormed(rest)
    case Cons(Star, rest) => (rest.Cons? ==> rest.head.Lit?) && WellFormed(rest)
  }

  lemma {:induction false} TokensWellFormed(s: string, p: nat)
    requires p <= |s|
    ensures WellFormed(Tokens(s, p))
    decreases |s| - p
  {
    if p < |s| {
      TokensWellFormed(s, NextAt(s, p));
      SkipsEnd(s, p);
      SkipsEnd(s, p + 1);
    }
  }

  lemma {:induction false} SkipsEnd(s: string, p: nat)
    requires p <= |s|
    ensures SkipWild(s, p) < |s| ==> !IsWild(s[SkipWild(s, p)])
    ensures SkipPlain(s, p) < |s| ==> IsWild(s[SkipPlain(s, p)])
    ensures p < |s| && !IsWild(s[p]) ==> SkipPlain(s, p) > p
    decreases |s| - p
  {
    if p < |s| {
      SkipsEnd(s, p + 1);
    }
  }

  /** A result of 0 is never wrong. */
  lemma {:induction false} MatchIsSound(t: List<Token>, s: string, c: nat)
    requires WellFormed(t) && c <= |s| && Compare(t, s, c) == 0
    ensures Glob(t, s, c)
  {
    match t
    case Nil =>
    case Cons(Any, rest) => MatchIsSound(rest, s, c + 1);
    case Cons(Lit(w), rest) => MatchIsSound(rest, s, c + |w|);
    case Cons(Star, Nil) => StarHas(t, s, c, |s|);
    case Cons(Star, Cons(Lit(w), rest)) =>
      var k := First(w, s, c);
      FirstOccurs(w, s, c);
      MatchIsSound(rest, s, k + |w|);
      StarHas(t, s, c, k);
  }

  lemma StarHas(t: List<Token>, s: string, c: nat, k: nat)
    requires c <= k <= |s| && t.Cons? && t.head == Star && Glob(t.tail, s, k)
    ensures Glob(t, s, c)
  {
  }

  /** Where a star ends. */
  lemma StarAt(t: List<Token>, s: string, c: nat) returns (k: nat)
    requires c <= |s| && t.Cons? && t.head == Star && Glob(t, s, c)
    ensures c <= k <= |s| && Glob(t.tail, s, k)
  {
    k :| c <= k <= |s| && Glob(t.tail, s, k);
  }

  /** Behind a literal that was searched for: question marks only, and then another star. */
  predicate SafeAfter(t: List<Token>) {
    match t
    case Cons(Any, rest) => SafeAfter(rest)
    case Cons(Star, Nil) => true
    case Cons(Star, Cons(_, rest)) => SafeAfter(rest)
    case _ => false
  }

  /** Taking the first occurrence is as good as taking any: there is no star, or each is followed by another up to the end. */
  predicate Safe(t: List<Token>) {
    match t
    case Nil => true
    case Cons(Star, _) => SafeAfter(t)
    case Cons(_, rest) => Safe(rest)
  }

  lemma {:induction false} AfterIsSafe(t: List<Token>)
    requires SafeAfter(t)
    ensures Safe(t)
  {
    if t.head == Any {
      AfterIsSafe(t.tail);
    }
  }

  /** What matches behind a later occurrence matches behind an earlier one. */
  lemma {:induction false} EarlierMatches(t: List<Token>, s: string, c: nat, d: nat)
    requires SafeAfter(t) && c <= d <= |s| && Glob(t, s, d)
    ensures Glob(t, s, c)
  {
    if t.head == Any {
      EarlierMatches(t.tail, s, c + 1, d + 1);
    } else {
      var k := StarAt(t, s, d);
      StarHas(t, s, c, k);
    }
  }

  lemma {:induction false} MatchIsComplete(t: List<Token>, s: string, c: nat)
    requires WellFormed(t) && Safe(t) && c <= |s| && Glob(t, s, c)
    ensures Compare(t, s, c) == 0
  {
    match t
    case Nil =>
    case Cons(Any, rest) => MatchIsComplete(rest, s, c + 1);
    case Cons(Lit(w), rest) => MatchIsComplete(rest, s, c + |w|);
    case Cons(Star, Nil) =>
    case Cons(Star, Cons(Lit(w), rest)) =>
      var k := StarAt(t, s, c);
      NoneEarlier(w, s, c, k);
      var first := First(w, s, c);
      EarlierMatches(rest, s, first + |w|, k + |w|);
      AfterIsSafe(rest);
      MatchIsComplete(rest, s, first + |w|);
  }

  // Where the first occurrence is not as good as any

  lemma AtShift(w: string, a: string, b: string, c: nat)
    requires c <= |b|
    ensures At(w, a + b, |a| + c) == At(w, b, c)
  {
    if At(w, b, c) {
      forall i | 0 <= i < |w| ensures (a + b)[|a| + c + i] == w[i] {
        assert b[c + i] == w[i];
      }
    }
    if At(w, a + b, |a| + c) {
      forall i | 0 <= i < |w| ensures b[c + i] == w[i] {
        assert (a + b)[|a| + c + i] == w[i];
      }
    }
  }

  lemma {:induction false} FirstShift(w: string, a: string, b: string, c: nat)
    requires c <= |b|
    ensures First(w, a + b, |a| + c) == |a| + First(w, b, c)
    decreases |b| - c
  {
    AtShift(w, a, b, c);
    if c < |b| {
      FirstShift(w, a, b, c + 1);
    }
  }

  lemma {:induction false} GlobShift(t: List<Token>, a: string, b: string, c: nat)
    requires c <= |b| && Glob(t, b, c)
    ensures Glob(t, a + b, |a| + c)
  {
    match t
    case Nil =>
    case Cons(Any, rest) => GlobShift(rest, a, b, c + 1);
    case Cons(Lit(w), rest) =>
      AtShift(w, a, b, c);
      GlobShift(rest, a, b, c + |w|);
    case Cons(Star, rest) =>
      var k := StarAt(t, b, c);
      GlobShift(rest, a, b, k);
      StarHas(t, a + b, |a| + c, |a| + k);
  }

  lemma {:induction false} CompareShift(t: List<Token>, a: string, b: string, c: nat)
    requires c <= |b|
    ensures (Compare(t, a + b, |a| + c) == 0) == (Compare(t, b, c) == 0)
  {
    match t
    case Nil =>
    case Cons(Any, rest) =>
      if c < |b| { CompareShift(rest, a, b, c + 1); }
    case Cons(Lit(w), rest) =>
      AtShift(w, a, b, c);
      if c < |b| && At(w, b, c) { CompareShift(rest, a, b, c + |w|); }
    case Cons(Star, Nil) =>
    case Cons(Star, Cons(next, rest)) =>
      var w := Text(next);
      FirstShift(w, a, b, c);
      var k := First(w, b, c);
      if k < |b| { CompareShift(rest, a, b, k + |w|); }
  }

  /** How many question marks come first, and what follows them. */
  function Marks(t: List<Token>): nat {
    if t.Cons? && t.head == Any then 1 + Marks(t.tail) else 0
  }

  function PastMarks(t: List<Token>): List<Token> {
    if t.Cons? && t.head == Any then PastMarks(t.tail) else t
  }

  lemma {:induction false} PassMarks(t: List<Token>, s: string, c: nat)
    requires c + Marks(t) <= |s|
    ensures Glob(t, s, c) == Glob(PastMarks(t), s, c + Marks(t))
    ensures (Compare(t, s, c) == 0) == (Compare(PastMarks(t), s, c + Marks(t)) == 0)
  {
    if t.Cons? && t.head == Any {
      PassMarks(t.tail, s, c + 1);
    }
  }

  lemma {:induction false} UnsafeAfterMarks(t: List<Token>)
    requires !SafeAfter(t) && WellFormed(t)
    ensures var rest := PastMarks(t);
      WellFormed(rest) && (rest.Nil? || rest.head.Lit? || (rest.head == Star && !Safe(rest) && (rest == t || rest < t)))
  {
    if t.Cons? && t.head == Any {
      UnsafeAfterMarks(t.tail);
    }
  }

  /** Some string the pattern stands for. */
  function Sample(t: List<Token>): string {
    match t
    case Nil => ""
    case Cons(Any, rest) => "x" + Sample(rest)
    case Cons(Lit(w), rest) => w + Sample(rest)
    case Cons(Star, rest) => Sample(rest)
  }

  lemma {:induction false} SampleMatches(t: List<Token>)
    ensures Glob(t, Sample(t), 0)
  {
    match t
    case Nil =>
    case Cons(Any, rest) =>
      SampleMatches(rest);
      GlobShift(rest, "x", Sample(rest), 0);
    case Cons(Lit(w), rest) =>
      SampleMatches(rest);
      GlobShift(rest, w, Sample(rest), 0);
    case Cons(Star, rest) =>
      SampleMatches(rest);
      StarHas(t, Sample(t), 0, 0);
  }

  function Repeat(c: char, n: nat): (r: string)
    ensures |r| == n && forall i :: 0 <= i < n ==> r[i] == c
  {
    seq(n, i => c)
  }

  /** When a star is followed by a literal and no other star, some string the pattern stands for is refused. */
  lemma {:induction false} UnsafeMisses(t: List<Token>) returns (s: string)
    requires WellFormed(t) && !Safe(t)
    ensures Glob(t, s, 0) && Compare(t, s, 0) != 0
    decreases t
  {
    match t
    case Cons(Any, rest) =>
      var u := UnsafeMisses(rest);
      s := "x" + u;
      GlobShift(rest, "x", u, 0);
      CompareShift(rest, "x", u, 0);
    case Cons(Lit(w), rest) =>
      var u := UnsafeMisses(rest);
      s := w + u;
      GlobShift(rest, w, u, 0);
      CompareShift(rest, w, u, 0);
    case Cons(Star, Cons(Lit(w), rest)) =>
      UnsafeAfterMarks(rest);
      var behind := PastMarks(rest);
      if behind.Cons? && behind.head == Star {
        var u := UnsafeMisses(behind);
        s := RestMisses(w, rest, u);
      } else {
        s := LaterOnly(w, rest, if behind.Cons? && behind.head.text[0] == 'a' then 'b' else 'a');
      }
  }

  /** The first occurrence is as good as any, but what comes behind misses. */
  lemma RestMisses(w: string, rest: List<Token>, u: string) returns (s: string)
    requires w != "" && Glob(PastMarks(rest), u, 0) && Compare(PastMarks(rest), u, 0) != 0
    ensures Glob(Cons(Star, Cons(Lit(w), rest)), s, 0) && Compare(Cons(Star, Cons(Lit(w), rest)), s, 0) != 0
  {
    var m, behind := Marks(rest), PastMarks(rest);
    var front := w + Repeat('x', m);
    s := front + u;
    GlobShift(behind, front, u, 0);
    CompareShift(behind, front, u, 0);
    PassMarks(rest, s, |w|);
    OccursFirst(w, rest, s, 0);
  }

  /** A literal behind a star that occurs at the start, and again at k. */
  lemma OccursFirst(w: string, rest: List<Token>, s: string, k: nat)
    requires w != "" && At(w, s, 0) && At(w, s, k) && Glob(rest, s, k + |w|)
    ensures Glob(Cons(Star, Cons(Lit(w), rest)), s, 0)
    ensures Compare(Cons(Star, Cons(Lit(w), rest)), s, 0) == Compare(rest, s, |w|)
  {
    var t := Cons(Lit(w), rest);
    assert Glob(t, s, k);
    StarHas(Cons(Star, t), s, 0, k);
  }

  /** The first occurrence leads nowhere, a later one does. */
  lemma LaterOnly(w: string, rest: List<Token>, y: char) returns (s: string)
    requires w != ""
    requires var behind := PastMarks(rest);
      behind == Nil || (behind.head.Lit? && behind.head.text != "" && behind.head.text[0] != y)
    ensures Glob(Cons(Star, Cons(Lit(w), rest)), s, 0) && Compare(Cons(Star, Cons(Lit(w), rest)), s, 0) != 0
  {
    var m, behind := Marks(rest), PastMarks(rest);
    var front := w + Repeat(y, m + 1) + w;
    s := front + Sample(rest);
    SampleMatches(rest);
    GlobShift(rest, front, Sample(rest), 0);
    OccursFirst(w, rest, s, |w| + m + 1);
    PassMarks(rest, s, |w|);
    assert s[|w| + m] == y;
    assert behind.Cons? ==> !At(behind.head.text, s, |w| + m);
  }

  /** The matcher is exact for a pattern if and only if taking the first occurrence is safe in it. */
  lemma GreedyIsExact(p: string)
    ensures Safe(Tokens(p, 0)) <==> forall s: string :: Compare(Tokens(p, 0), s, 0) == 0 <==> Glob(Tokens(p, 0), s, 0)
  {
    var t := Tokens(p, 0);
    TokensWellFormed(p, 0);
    if Safe(t) {
      forall s: string ensures Compare(t, s, 0) == 0 <==> Glob(t, s, 0) {
        if Compare(t, s, 0) == 0 {
          MatchIsSound(t, s, 0);
        }
        if Glob(t, s, 0) {
          MatchIsComplete(t, s, 0);
        }
      }
    } else {
      var s := UnsafeMisses(t);
    }
  }

  /** "*ab" stands for "abab", but the first "ab" is taken and the second one is left over. */
  lemma GreedyMisses()
    ensures Tokens("*ab", 0) == Cons(Star, Cons(Lit("ab"), Nil))
    ensures Glob(Tokens("*ab", 0), "abab", 0) && Compare(Tokens("*ab", 0), "abab", 0) == -1
  {
    var t := Cons(Lit("ab"), Nil);
    assert "*ab"[1..3] == "ab" && SkipPlain("*ab", 1) == 3;
    assert Tokens("*ab", 1) == t;
    assert At("ab", "abab", 2) && At("ab", "abab", 0);
    assert Glob(t, "abab", 2);
    assert First("ab", "abab", 0) == 0;
  }

  // What the tokens keep of the pattern

  /** The pattern read character by character: a star stands for any string, a question mark for any character. */
  ghost predicate Stands(p: string, i: nat, s: string, c: nat)
    requires i <= |p| && c <= |s|
    decreases |p| - i, 0
  {
    if i == |p| then c == |s|
    else if p[i] == '*' then StandsLater(p, i + 1, s, c)
    else c < |s| && (p[i] == '?' || s[c] == p[i]) && Stands(p, i + 1, s, c + 1)
  }

  ghost predicate StandsLater(p: string, i: nat, s: string, c: nat)
    requires i <= |p| && c <= |s|
    decreases |p| - i, 1
  {
    exists k: nat :: c <= k <= |s| && Stands(p, i, s, k)
  }

  /** No star swallows a question mark, and no run of plain characters is cut to the buffer. */
  ghost predicate Unabridged(p: string, i: nat)
    requires i <= |p|
    decreases |p| - i
  {
    i == |p| || (
      && (p[i] == '*' ==> forall j :: i <= j < NextAt(p, i) ==> p[j] == '*')
      && (!IsWild(p[i]) ==> NextAt(p, i) - i < TOK_SIZE)
      && Unabridged(p, NextAt(p, i)))
  }

  lemma {:induction false} StandsStars(p: string, i: nat, q: nat, s: string, c: nat)
    requires i < q <= |p| && c <= |s| && forall j :: i <= j < q ==> p[j] == '*'
    ensures Stands(p, i, s, c) <==> StandsLater(p, q, s, c)
    decreases q - i
  {
    if i + 1 < q {
      if StandsLater(p, i + 1, s, c) {
        var k: nat :| c <= k <= |s| && Stands(p, i + 1, s, k);
        StandsStars(p, i + 1, q, s, k);
      }
      if StandsLater(p, q, s, c) {
        StandsStars(p, i + 1, q, s, c);
        assert Stands(p, i + 1, s, c);
      }
    }
  }

  lemma {:induction false} StandsPlain(p: string, i: nat, q: nat, s: string, c: nat)
    requires i <= q <= |p| && c <= |s| && forall j :: i <= j < q ==> !IsWild(p[j])
    ensures Stands(p, i, s, c) <==> At(p[i..q], s, c) && Stands(p, q, s, c + (q - i))
    decreases q - i
  {
    if i < q {
      if c < |s| {
        StandsPlain(p, i + 1, q, s, c + 1);
        assert p[i..q] == [p[i]] + p[i + 1..q];
      }
    }
  }

  lemma {:induction false} PlainRun(p: string, i: nat)
    requires i <= |p|
    ensures forall j :: i <= j < SkipPlain(p, i) ==> !IsWild(p[j])
    decreases |p| - i
  {
    if i < |p| && !IsWild(p[i]) {
      PlainRun(p, i + 1);
    }
  }

  lemma {:induction false} TokensKeep(p: string, i: nat, s: string, c: nat)
    requires i <= |p| && c <= |s| && Unabridged(p, i)
    ensures Glob(Tokens(p, i), s, c) <==> Stands(p, i, s, c)
    decreases |p| - i
  {
    if i < |p| {
      var q := NextAt(p, i);
      if p[i] == '*' {
        StandsStars(p, i, q, s, c);
        forall k: nat | c <= k <= |s| ensures Glob(Tokens(p, q), s, k) <==> Stands(p, q, s, k) {
          TokensKeep(p, q, s, k);
        }
        assert StandsLater(p, q, s, c) <==> exists k: nat :: c <= k <= |s| && Glob(Tokens(p, q), s, k);
      } else if p[i] == '?' {
        if c < |s| {
          TokensKeep(p, q, s, c + 1);
        }
      } else {
        PlainRun(p, i);
        StandsPlain(p, i, q, s, c);
        if At(p[i..q], s, c) {
          TokensKeep(p, q, s, c + (q - i));
        }
      }
    }
  }

  /** How long a string has to be at least. */
  function Least(p: string, i: nat): nat
    requires i <= |p|
    decreases |p| - i
  {
    if i == |p| then 0 else (if p[i] == '*' then 0 else 1) + Least(p, i + 1)
  }

  lemma {:induction false} StandsLeast(p: string, i: nat, s: string, c: nat)
    requires i <= |p| && c <= |s| && Stands(p, i, s, c)
    ensures |s| - c >= Least(p, i)
    decreases |p| - i
  {
    if i < |p| {
      if p[i] == '*' {
        var k: nat :| c <= k <= |s| && Stands(p, i + 1, s, k);
        StandsLeast(p, i + 1, s, k);
      } else {
        StandsLeast(p, i + 1, s, c + 1);
      }
    }
  }

  lemma {:induction false} LeastWild(p: string, i: nat, q: nat)
    requires i <= q <= |p|
    ensures Least(p, i) >= Least(p, q)
    ensures (exists j :: i <= j < q && p[j] != '*') ==> Least(p, i) > Least(p, q)
    decreases q - i
  {
    if i < q {
      LeastWild(p, i + 1, q);
    }
  }

  lemma {:induction false} LeastPlain(p: string, i: nat, q: nat)
    requires i <= q <= |p| && forall j :: i <= j < q ==> !IsWild(p[j])
    ensures Least(p, i) == q - i + Least(p, q)
    decreases q - i
  {
    if i < q {
      LeastPlain(p, i + 1, q);
    }
  }

  lemma {:induction false} SampleLeast(p: string, i: nat)
    requires i <= |p|
    ensures |Sample(Tokens(p, i))| <= Least(p, i)
    ensures !Unabridged(p, i) ==> |Sample(Tokens(p, i))| < Least(p, i)
    decreases |p| - i
  {
    if i < |p| {
      var q := NextAt(p, i);
      SampleLeast(p, q);
      if p[i] == '*' {
        LeastWild(p, i, q);
      } else if p[i] != '?' {
        PlainRun(p, i);
        LeastPlain(p, i, q);
      }
    }
  }

  /** "*?" asks for a character at least, but is read as "*". */
  lemma MarkSwallowed()
    ensures Tokens("*?", 0) == Cons(Star, Nil) && Glob(Tokens("*?", 0), "", 0) && !Stands("*?", 0, "", 0)
  {
    assert Glob(Nil, "", 0);
    assert !Stands("*?", 1, "", 0);
  }

  /** The tokens mean what the pattern says if and only if nothing of it was swallowed or cut. */
  lemma TokensAreFaithful(p: string)
    ensures Unabridged(p, 0) <==> forall s: string :: Glob(Tokens(p, 0), s, 0) <==> Stands(p, 0, s, 0)
  {
    if Unabridged(p, 0) {
      forall s: string ensures Glob(Tokens(p, 0), s, 0) <==> Stands(p, 0, s, 0) {
        TokensKeep(p, 0, s, 0);
      }
    } else {
      var s := Sample(Tokens(p, 0));
      SampleMatches(Tokens(p, 0));
      SampleLeast(p, 0);
      if Stands(p, 0, s, 0) {
        StandsLeast(p, 0, s, 0);
      }
      assert Glob(Tokens(p, 0), s, 0) && !Stands(p, 0, s, 0);
    }
  }
}
