/** The cell memory of the embedded Lisp (src/lib/siod): addresses, the words of a
    cell that hold pointers, and reachability from a set of roots.

    Address 0 is NIL.  A cell has a mark, a type code and two words of storage; the
    union of siod.h overlays car/env/pname on the first word and cdr/code/vcell on
    the second, so one representation serves every type. */
module SiodCells {

  const NIL: int := 0

  datatype Kind = Cons | Flonum | Symbol | Closure | Subr(tc: nat) | FreeCell

  datatype Cell = Cell(mark: bool, kind: Kind, w0: int, w1: int)

  type Memory = seq<Cell>

  /** Which words of a cell of this type are pointers. */
  predicate Pointer0(k: Kind) {
    k == Cons || k == Closure
  }

  predicate Pointer1(k: Kind) {
    k == Cons || k == Closure || k == Symbol
  }

  /** y is a non-NIL pointer stored in the cell at x. */
  ghost predicate Edge(m: Memory, x: int, y: int) {
    && 0 < x < |m| && y != NIL
    && ((Pointer0(m[x].kind) && y == m[x].w0) || (Pointer1(m[x].kind) && y == m[x].w1))
  }

  /** The same, kind by kind: a pair and a closure point with both words, a symbol with its value, nothing else points. */
  lemma EdgeByKind(m: Memory, x: int, y: int)
    ensures Edge(m, x, y) <==>
      && 0 < x < |m| && y != NIL
      && match m[x].kind {
           case Cons | Closure => y == m[x].w0 || y == m[x].w1
           case Symbol => y == m[x].w1
           case _ => false
         }
  {
  }

  ghost predicate IsPath(m: Memory, roots: set<int>, p: seq<int>) {
    && |p| > 0 && p[0] in roots && p[0] != NIL
    && forall i, j :: 0 <= i && j == i + 1 && j < |p| ==> Edge(m, p[i], p[j])
  }

  ghost predicate Reachable(m: Memory, roots: set<int>, x: int) {
    exists p :: IsPath(m, roots, p) && p[|p| - 1] == x
  }

  lemma RootReachable(m: Memory, roots: set<int>, x: int)
    requires x in roots && x != NIL
    ensures Reachable(m, roots, x)
  {
    assert IsPath(m, roots, [x]);
  }

  lemma EdgeReachable(m: Memory, roots: set<int>, x: int, y: int)
    requires Reachable(m, roots, x) && Edge(m, x, y)
    ensures Reachable(m, roots, y)
  {
    var p :| IsPath(m, roots, p) && p[|p| - 1] == x;
    assert IsPath(m, roots, p + [y]);
  }

  /** No path ends in a cell that is no root and that no other cell names. */
  lemma {:induction false} NotNamed(m: Memory, roots: set<int>, p: seq<int>, x: int)
    requires IsPath(m, roots, p) && x !in roots && x != NIL
    requires forall y :: 0 < y < |m| && y != x ==>
      match m[y].kind {
        case Cons | Closure => m[y].w0 != x && m[y].w1 != x
        case Symbol => m[y].w1 != x
        case _ => true
      }
    ensures p[|p| - 1] != x
  {
    if |p| > 1 {
      var q := p[..|p| - 1];
      assert IsPath(m, roots, q);
      NotNamed(m, roots, q, x);
      assert Edge(m, p[|p| - 2], p[|p| - 1]);
      EdgeByKind(m, p[|p| - 2], x);
    }
  }

  /** S holds the roots and everything its members point to. */
  ghost predicate ClosedFrom(m: Memory, roots: set<int>, S: set<int>) {
    && (forall r :: r in roots && r != NIL ==> r in S)
    && (forall x, y :: x in S && Edge(m, x, y) ==> y in S)
  }

  /** Whatever is reachable lies in every set closed from the roots. */
  lemma {:induction false} ReachableInClosed(m: Memory, roots: set<int>, S: set<int>, x: int)
    requires ClosedFrom(m, roots, S) && Reachable(m, roots, x)
    ensures x in S
  {
    var p :| IsPath(m, roots, p) && p[|p| - 1] == x;
    PathInClosed(m, roots, S, p);
  }

  lemma {:induction false} PathInClosed(m: Memory, roots: set<int>, S: set<int>, p: seq<int>)
    requires ClosedFrom(m, roots, S) && IsPath(m, roots, p)
    ensures p[|p| - 1] in S
  {
    if |p| > 1 {
      var q := p[..|p| - 1];
      assert IsPath(m, roots, q);
      PathInClosed(m, roots, S, q);
      assert Edge(m, p[|p| - 2], p[|p| - 1]);
    }
  }

  /** A sequence of distinct numbers from [lo, hi) that misses one of them is shorter
      than the interval: why a new space as large as the old one never overflows. */
  lemma {:induction false} DistinctMissing(s: seq<int>, lo: int, hi: int, x: int)
    requires forall i :: 0 <= i < |s| ==> lo <= s[i] < hi
    requires forall i, j :: 0 <= i < j < |s| ==> s[i] != s[j]
    requires lo <= x < hi && x !in s
    ensures |s| < hi - lo
  {
    DistinctBound(s + [x], lo, hi);
  }

  lemma {:induction false} DistinctBound(s: seq<int>, lo: int, hi: int)
    requires lo <= hi
    requires forall i :: 0 <= i < |s| ==> lo <= s[i] < hi
    requires forall i, j :: 0 <= i < j < |s| ==> s[i] != s[j]
    ensures |s| <= hi - lo
    decreases hi - lo
  {
    if |s| == 0 {
    } else if hi - 1 in s {
      var k :| 0 <= k < |s| && s[k] == hi - 1;
      var t := s[..k] + s[k + 1..];
      DistinctBound(t, lo, hi - 1);
    } else {
      assert s[0] < hi - 1;
      DistinctBound(s, lo, hi - 1);
    }
  }
}
