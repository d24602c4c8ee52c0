/** The stable merge sort (src/lib/xcintool/stable_sort.c). */
module StableSort {

  import opened Sealed

  /** One call of the comparison function. */
  function Cmp<T>(compar: (T, T) -> int, a: T, b: T): int {
    compar(a, b)
  }

  /** What a comparison function has to be. */
  ghost predicate Preorder<T(!new)>(compar: (T, T) -> int) {
    && (forall a, b :: Cmp(compar, a, b) > 0 <==> Cmp(compar, b, a) < 0)
    && (forall a, b, c :: Cmp(compar, a, b) <= 0 && Cmp(compar, b, c) <= 0 ==> Cmp(compar, a, c) <= 0)
  }

  ghost predicate Sorted<T(!new)>(compar: (T, T) -> int, s: seq<T>) {
    forall i, j :: 0 <= i < j < |s| ==> Cmp(compar, s[i], s[j]) <= 0
  }

  /** The elements of s that compare equal to x, in their order. */
  function Alike<T>(compar: (T, T) -> int, s: seq<T>, x: T): seq<T> {
    if s == [] then []
    else if Cmp(compar, x, s[0]) == 0 then [s[0]] + Alike(compar, s[1..], x)
    else Alike(compar, s[1..], x)
  }

  /** r is s sorted, elements that compare equal keeping their order. */
  ghost predicate StablySorts<T(!new)>(compar: (T, T) -> int, s: seq<T>, r: seq<T>) {
    |r| == |s| && Sorted(compar, r) && forall x :: Alike(compar, r, x) == Alike(compar, s, x)
  }

  function Merged<T>(compar: (T, T) -> int, x: seq<T>, y: seq<T>): (r: seq<T>)
    ensures |r| == |x| + |y|
    decreases |x| + |y|
  {
    if x == [] then y
    else if y == [] then x
    else if Cmp(compar, x[0], y[0]) > 0 then [y[0]] + Merged(compar, x, y[1..])
    else [x[0]] + Merged(compar, x[1..], y)
  }

  function MergeSorted<T>(compar: (T, T) -> int, s: seq<T>): (r: seq<T>)
    ensures |r| == |s|
    decreases |s|
  {
    if |s| <= 1 then s
    else if |s| == 2 then (if Cmp(compar, s[0], s[1]) > 0 then [s[1], s[0]] else s)
    else Merged(compar, MergeSorted(compar, s[..|s| / 2]), MergeSorted(compar, s[|s| / 2..]))
  }

  lemma Regroup<T>(a: seq<T>, b: seq<T>, c: seq<T>)
    ensures a + (b + c) == a + b + c
  {
  }

  lemma NothingBefore<T>(s: seq<T>)
    ensures [] + s == s
  {
  }

  lemma {:induction false} AlikeConcat<T>(compar: (T, T) -> int, a: seq<T>, b: seq<T>, x: T)
    ensures Alike(compar, a + b, x) == Alike(compar, a, x) + Alike(compar, b, x)
  {
    if a == [] {
      NothingBefore(b);
      NothingBefore(Alike(compar, b, x));
    } else {
      assert (a + b)[0] == a[0] && (a + b)[1..] == a[1..] + b;
      AlikeConcat(compar, a[1..], b, x);
      Regroup([a[0]], Alike(compar, a[1..], x), Alike(compar, b, x));
    }
  }

  lemma AlikeCons<T>(compar: (T, T) -> int, e: T, rest: seq<T>, x: T)
    ensures Alike(compar, [e] + rest, x) == if Cmp(compar, x, e) == 0 then [e] + Alike(compar, rest, x) else Alike(compar, rest, x)
  {
    assert ([e] + rest)[1..] == rest;
  }

  lemma AlikeTail<T>(compar: (T, T) -> int, s: seq<T>, x: T)
    requires s != []
    ensures Alike(compar, s[1..], x) == if Cmp(compar, x, s[0]) == 0 then Alike(compar, s, x)[1..] else Alike(compar, s, x)
  {
  }

  /** Before an element that is smaller than all of s, nothing of s is alike. */
  lemma {:induction false} NoneAlike<T(!new)>(compar: (T, T) -> int, s: seq<T>, x: T)
    requires forall i :: 0 <= i < |s| ==> Cmp(compar, x, s[i]) != 0
    ensures Alike(compar, s, x) == []
  {
    if s != [] {
      NoneAlike(compar, s[1..], x);
    }
  }

  lemma NotAlike<T(!new)>(compar: (T, T) -> int, first: T, later: T, e: T, z: T)
    requires Preorder(compar) && Cmp(compar, first, e) > 0 && Cmp(compar, z, e) == 0
    requires Cmp(compar, first, later) <= 0 || first == later
    ensures Cmp(compar, z, later) != 0
  {
    var laterFirst, laterThanE := Cmp(compar, later, z), Cmp(compar, later, e);
  }

  /** An element that goes before all of s has no equal in it. */
  lemma BehindAll<T(!new)>(compar: (T, T) -> int, x: seq<T>, e: T, z: T)
    requires Preorder(compar) && Sorted(compar, x) && x != [] && Cmp(compar, x[0], e) > 0 && Cmp(compar, z, e) == 0
    ensures Alike(compar, x, z) == []
  {
    forall i | 0 <= i < |x| ensures Cmp(compar, z, x[i]) != 0 {
      NotAlike(compar, x[0], x[i], e, z);
    }
    NoneAlike(compar, x, z);
  }

  lemma {:induction false} MergedAlike<T(!new)>(compar: (T, T) -> int, x: seq<T>, y: seq<T>, z: T)
    requires Preorder(compar) && Sorted(compar, x) && Sorted(compar, y)
    ensures Alike(compar, Merged(compar, x, y), z) == Alike(compar, x, z) + Alike(compar, y, z)
    decreases |x| + |y|
  {
    if x == [] {
      NothingBefore(Alike(compar, y, z));
    } else if y == [] {
      assert Alike(compar, x, z) + [] == Alike(compar, x, z);
    } else if Cmp(compar, x[0], y[0]) > 0 {
      MergedAlike(compar, x, y[1..], z);
      if Cmp(compar, z, y[0]) == 0 {
        BehindAll(compar, x, y[0], z);
      }
      AlikeFromY(compar, x, y, Merged(compar, x, y[1..]), z);
    } else {
      MergedAlike(compar, x[1..], y, z);
      AlikeFromX(compar, x, y, Merged(compar, x[1..], y), z);
    }
  }

  lemma AlikeFromY<T>(compar: (T, T) -> int, x: seq<T>, y: seq<T>, rest: seq<T>, z: T)
    requires y != [] && Alike(compar, rest, z) == Alike(compar, x, z) + Alike(compar, y[1..], z)
    requires Cmp(compar, z, y[0]) == 0 ==> Alike(compar, x, z) == []
    ensures Alike(compar, [y[0]] + rest, z) == Alike(compar, x, z) + Alike(compar, y, z)
  {
    AlikeCons(compar, y[0], rest, z);
    if Cmp(compar, z, y[0]) == 0 {
      NothingBefore(Alike(compar, y[1..], z));
      NothingBefore(Alike(compar, y, z));
    }
  }

  lemma AlikeFromX<T>(compar: (T, T) -> int, x: seq<T>, y: seq<T>, rest: seq<T>, z: T)
    requires x != [] && Alike(compar, rest, z) == Alike(compar, x[1..], z) + Alike(compar, y, z)
    ensures Alike(compar, [x[0]] + rest, z) == Alike(compar, x, z) + Alike(compar, y, z)
  {
    AlikeCons(compar, x[0], rest, z);
    Regroup([x[0]], Alike(compar, x[1..], z), Alike(compar, y, z));
  }

  /** Every element of the merge comes from one of the two. */
  lemma {:induction false} MergedFrom<T>(compar: (T, T) -> int, x: seq<T>, y: seq<T>, i: nat)
    requires i < |x| + |y|
    ensures Merged(compar, x, y)[i] in x || Merged(compar, x, y)[i] in y
    decreases |x| + |y|
  {
    if x != [] && y != [] && i > 0 {
      if Cmp(compar, x[0], y[0]) > 0 {
        MergedFrom(compar, x, y[1..], i - 1);
      } else {
        MergedFrom(compar, x[1..], y, i - 1);
      }
    }
  }

  lemma {:induction false} MergedSorted<T(!new)>(compar: (T, T) -> int, x: seq<T>, y: seq<T>)
    requires Preorder(compar) && Sorted(compar, x) && Sorted(compar, y)
    ensures Sorted(compar, Merged(compar, x, y))
    decreases |x| + |y|
  {
    if x != [] && y != [] {
      var fromY := Cmp(compar, x[0], y[0]) > 0;
      var x1, y1 := if fromY then x else x[1..], if fromY then y[1..] else y;
      var first, rest := if fromY then y[0] else x[0], Merged(compar, x1, y1);
      MergedSorted(compar, x1, y1);
      forall i | 0 <= i < |rest| ensures Cmp(compar, first, rest[i]) <= 0 {
        MergedFrom(compar, x1, y1, i);
        FirstSmallest(compar, x, y, first, rest[i]);
      }
      SortedMore(compar, first, rest);
    }
  }

  lemma SortedMore<T(!new)>(compar: (T, T) -> int, first: T, rest: seq<T>)
    requires Sorted(compar, rest) && forall i :: 0 <= i < |rest| ==> Cmp(compar, first, rest[i]) <= 0
    ensures Sorted(compar, [first] + rest)
  {
  }

  lemma FirstSmallest<T(!new)>(compar: (T, T) -> int, x: seq<T>, y: seq<T>, first: T, e: T)
    requires Preorder(compar) && Sorted(compar, x) && Sorted(compar, y) && x != [] && y != []
    requires first == if Cmp(compar, x[0], y[0]) > 0 then y[0] else x[0]
    requires e in x || e in y
    ensures Cmp(compar, first, e) <= 0
  {
    assert Cmp(compar, x[0], x[0]) <= 0 && Cmp(compar, y[0], y[0]) <= 0;
    assert Cmp(compar, first, x[0]) <= 0 && Cmp(compar, first, y[0]) <= 0;
    if e in x {
      var i :| 0 <= i < |x| && x[i] == e;
    } else {
      var i :| 0 <= i < |y| && y[i] == e;
    }
  }

  /** The main property: for every total preorder the result is the input sorted stably. */
  lemma {:induction false} MergeSortStable<T(!new)>(compar: (T, T) -> int, s: seq<T>)
    requires Preorder(compar)
    ensures StablySorts(compar, s, MergeSorted(compar, s))
    decreases |s|
  {
    if |s| == 2 {
      PairStable(compar, s, MergeSorted(compar, s));
    } else if |s| > 2 {
      var a, b := s[..|s| / 2], s[|s| / 2..];
      MergeSortStable(compar, a);
      MergeSortStable(compar, b);
      HalvesStable(compar, s, a, b, MergeSorted(compar, a), MergeSorted(compar, b));
    }
  }

  lemma HalvesStable<T(!new)>(compar: (T, T) -> int, s: seq<T>, a: seq<T>, b: seq<T>, x: seq<T>, y: seq<T>)
    requires s == a + b
    requires Preorder(compar) && StablySorts(compar, a, x) && StablySorts(compar, b, y)
    ensures StablySorts(compar, s, Merged(compar, x, y))
  {
    MergedSorted(compar, x, y);
    forall z ensures Alike(compar, Merged(compar, x, y), z) == Alike(compar, s, z) {
      MergedAlike(compar, x, y, z);
      AlikeConcat(compar, a, b, z);
    }
  }

  lemma PairStable<T(!new)>(compar: (T, T) -> int, s: seq<T>, r: seq<T>)
    requires Preorder(compar) && |s| == 2
    requires r == if Cmp(compar, s[0], s[1]) > 0 then [s[1], s[0]] else s
    ensures StablySorts(compar, s, r)
  {
    assert s == [s[0], s[1]];
    forall x ensures Alike(compar, r, x) == Alike(compar, s, x) {
      PairAlike(compar, s[0], s[1], x);
    }
  }

  lemma PairAlike<T(!new)>(compar: (T, T) -> int, a: T, b: T, x: T)
    requires Preorder(compar)
    ensures Cmp(compar, a, b) > 0 ==> Alike(compar, [b, a], x) == Alike(compar, [a, b], x)
  {
    assert [a, b][1..] == [b] && [b, a][1..] == [a] && [a][1..] == [] && [b][1..] == [];
    if Cmp(compar, x, a) == 0 && Cmp(compar, x, b) == 0 {
      assert Cmp(compar, a, x) <= 0 && Cmp(compar, x, b) <= 0;
    }
  }

  lemma {:induction false} AlikeCounts<T>(compar: (T, T) -> int, s: seq<T>, x: T)
    requires Cmp(compar, x, x) == 0
    ensures multiset(Alike(compar, s, x))[x] == multiset(s)[x]
  {
    if s != [] {
      AlikeCounts(compar, s[1..], x);
      assert s == [s[0]] + s[1..];
    }
  }

  /** A stable sort is a permutation. */
  lemma StablePermutes<T(!new)>(compar: (T, T) -> int, s: seq<T>, r: seq<T>)
    requires Preorder(compar) && StablySorts(compar, s, r)
    ensures multiset(r) == multiset(s)
  {
    forall x ensures multiset(r)[x] == multiset(s)[x] {
      assert Cmp(compar, x, x) == 0 && Alike(compar, r, x) == Alike(compar, s, x);
      AlikeCounts(compar, r, x);
      AlikeCounts(compar, s, x);
    }
  }

  /** There is only one way to sort stably. */
  lemma {:induction false} StableUnique<T(!new)>(compar: (T, T) -> int, r: seq<T>, q: seq<T>)
    requires Preorder(compar) && Sorted(compar, r) && Sorted(compar, q)
    requires forall x :: Alike(compar, r, x) == Alike(compar, q, x)
    ensures r == q
  {
    if r != [] {
      HeadAlike(compar, r, q);
      TailsAlike(compar, r, q);
      StableUnique(compar, r[1..], q[1..]);
    } else if q != [] {
      HeadAlike(compar, q, r);
    }
  }

  lemma TailsAlike<T(!new)>(compar: (T, T) -> int, r: seq<T>, q: seq<T>)
    requires r != [] && q != [] && r[0] == q[0]
    requires forall x :: Alike(compar, r, x) == Alike(compar, q, x)
    ensures forall x :: Alike(compar, r[1..], x) == Alike(compar, q[1..], x)
  {
    forall x ensures Alike(compar, r[1..], x) == Alike(compar, q[1..], x) {
      AlikeTail(compar, r, x);
      AlikeTail(compar, q, x);
    }
  }

  lemma HeadAlike<T(!new)>(compar: (T, T) -> int, r: seq<T>, q: seq<T>)
    requires Preorder(compar) && Sorted(compar, r) && Sorted(compar, q) && r != []
    requires forall x :: Alike(compar, r, x) == Alike(compar, q, x)
    ensures q != [] && q[0] == r[0]
  {
    var x := r[0];
    assert Cmp(compar, x, x) == 0 && Alike(compar, r, x)[0] == x;
    var i := SomeAlike(compar, q, x);
    assert Cmp(compar, q[0], q[0]) == 0;
    var j := SomeAlike(compar, r, q[0]);
    assert Cmp(compar, q[0], q[i]) <= 0 && Cmp(compar, q[i], x) <= 0;
    assert Cmp(compar, x, r[j]) <= 0 && Cmp(compar, r[j], q[0]) <= 0;
    assert Cmp(compar, x, q[0]) == 0;
    assert Alike(compar, q, x)[0] == q[0];
  }

  lemma SomeAlike<T(!new)>(compar: (T, T) -> int, s: seq<T>, x: T) returns (i: nat)
    requires Alike(compar, s, x) != []
    ensures i < |s| && Cmp(compar, x, s[i]) == 0
  {
    if forall k :: 0 <= k < |s| ==> Cmp(compar, x, s[k]) != 0 {
      NoneAlike(compar, s, x);
    }
    i :| 0 <= i < |s| && Cmp(compar, x, s[i]) == 0;
  }

  /** s with the elements from lo on replaced by r. */
  function Splice<T>(s: seq<T>, lo: nat, r: seq<T>): (q: seq<T>)
    requires lo + |r| <= |s|
    ensures |q| == |s|
  {
    s[..lo] + r + s[lo + |r|..]
  }

  /** Two elements change places by way of the scratch buffer. */
  method Swap<T>(a: array<T>, i: nat, buf: array<T>)
    requires i + 1 < a.Length && 0 < buf.Length && a != buf
    modifies a, buf
    ensures a[..] == Splice(old(a[..]), i, [old(a[i + 1]), old(a[i])])
  {
    buf[0] := a[i];
    a[i] := a[i + 1];
    a[i + 1] := buf[0];
  }

  lemma SpliceStep<T>(s: seq<T>, j: nat, r: seq<T>, e: T)
    requires j + |r| < |s|
    ensures Splice(s, j, r)[j + |r| := e] == Splice(s, j, r + [e])
  {
  }

  /** memcpy between the array and the buffer. */
  method Copy<T>(from: array<T>, i: nat, to: array<T>, j: nat, n: nat)
    requires i + n <= from.Length && j + n <= to.Length && from != to
    modifies to
    ensures to[..] == Splice(old(to[..]), j, from[i..i + n])
  {
    var k := 0;
    while k < n
      invariant 0 <= k <= n
      invariant to[..] == Splice(old(to[..]), j, from[i..i + k])
    {
      SpliceStep(old(to[..]), j, from[i..i + k], from[i + k]);
      assert from[i..i + (k + 1)] == from[i..i + k] + [from[i + k]];
      to[j + k] := from[i + k];
      k := k + 1;
    }
  }

  /** after is before with the n elements from lo on sorted by merging halves. */
  ghost predicate SortedPart<T>(compar: (T, T) -> int, before: seq<T>, lo: nat, n: nat, after: seq<T>)
    requires lo + n <= |before|
  {
    forall k: int :: Asked(k, after) ==> after == Splice(before, lo, MergeSorted(compar, before[lo..lo + n]))
  }

  /** after is before with two neighbouring runs merged. */
  ghost predicate MergedPart<T>(compar: (T, T) -> int, before: seq<T>, lo: nat, n1: nat, n2: nat, after: seq<T>)
    requires lo + n1 + n2 <= |before|
  {
    forall k: int :: Asked(k, after) ==> after == Splice(before, lo, Merged(compar, before[lo..lo + n1], before[lo + n1..lo + n1 + n2]))
  }

  /** The buffer holds the first i elements of x and j of y, merged: the merge is that and the merge of the rest. */
  ghost predicate HeadsMerged<T>(compar: (T, T) -> int, x: seq<T>, y: seq<T>, i: nat, j: nat, buf: seq<T>)
    requires i <= |x| && j <= |y| && i + j <= |buf|
  {
    forall k: int :: Asked(k, buf) ==> buf[..i + j] + Merged(compar, x[i..], y[j..]) == Merged(compar, x, y)
  }

  /** One head more in the buffer, one less to merge. */
  lemma MergedStep<T>(compar: (T, T) -> int, x: seq<T>, y: seq<T>, i: nat, j: nat, buf: seq<T>, fromY: bool, after: seq<T>)
    requires i < |x| && j < |y| && i + j < |buf| && fromY == (Cmp(compar, x[i], y[j]) > 0)
    requires HeadsMerged(compar, x, y, i, j, buf) && after == buf[i + j := if fromY then y[j] else x[i]]
    ensures HeadsMerged(compar, x, y, if fromY then i else i + 1, if fromY then j + 1 else j, after)
  {
    assert Asked(0, buf) && x[i..][1..] == x[i + 1..] && y[j..][1..] == y[j + 1..];
    var head := if fromY then y[j] else x[i];
    var rest := if fromY then Merged(compar, x[i..], y[j + 1..]) else Merged(compar, x[i + 1..], y[j..]);
    Regroup(buf[..i + j], [head], rest);
    assert after[..i + j + 1] == buf[..i + j] + [head];
  }

  /** The loop of merge: the smaller head goes to the buffer until one side is spent. */
  method MergeHeads<T>(a: array<T>, lo: nat, n1: nat, n2: nat, buf: array<T>, compar: (T, T) -> int) returns (i1: nat, i2: nat)
    requires lo + n1 + n2 <= a.Length && n1 + n2 <= buf.Length && a != buf
    modifies buf
    ensures i1 <= n1 && i2 <= n2 && (i1 == n1 || i2 == n2)
    ensures HeadsMerged(compar, a[lo..lo + n1], a[lo + n1..lo + n1 + n2], i1, i2, buf[..])
  {
    ghost var x, y := a[lo..lo + n1], a[lo + n1..lo + n1 + n2];
    i1, i2 := 0, 0;
    var i3 := 0;
    assert x[0..] == x && y[0..] == y;
    while i1 < n1 && i2 < n2
      invariant 0 <= i1 <= n1 && 0 <= i2 <= n2 && i3 == i1 + i2
      invariant HeadsMerged(compar, x, y, i1, i2, buf[..])
    {
      ghost var before := buf[..];
      if Cmp(compar, a[lo + i1], a[lo + n1 + i2]) > 0 {
        buf[i3] := a[lo + n1 + i2];
        MergedStep(compar, x, y, i1, i2, before, true, buf[..]);
        i2 := i2 + 1;
      } else {
        buf[i3] := a[lo + i1];
        MergedStep(compar, x, y, i1, i2, before, false, buf[..]);
        i1 := i1 + 1;
      }
      i3 := i3 + 1;
    }
  }

  lemma MergedRest<T>(compar: (T, T) -> int, x: seq<T>, y: seq<T>, i: nat, j: nat)
    requires i <= |x| && j <= |y| && (i == |x| || j == |y|)
    ensures Merged(compar, x[i..], y[j..]) == x[i..] + y[j..]
  {
  }

  /** The rest of the side that is not spent goes behind the heads. */
  method CopyRest<T>(a: array<T>, lo: nat, n1: nat, n2: nat, i1: nat, i2: nat, buf: array<T>, compar: (T, T) -> int)
    requires lo + n1 + n2 <= a.Length && n1 + n2 <= buf.Length && a != buf
    requires i1 <= n1 && i2 <= n2 && (i1 == n1 || i2 == n2)
    requires HeadsMerged(compar, a[lo..lo + n1], a[lo + n1..lo + n1 + n2], i1, i2, buf[..])
    modifies buf
    ensures MergeOf(compar, a[lo..lo + n1], a[lo + n1..lo + n1 + n2], buf[0..0 + (n1 + n2)])
  {
    ghost var heads := buf[..];
    if i1 < n1 {
      Copy(a, lo + i1, buf, i1 + i2, n1 - i1);
    } else if i2 < n2 {
      Copy(a, lo + n1 + i2, buf, i1 + i2, n2 - i2);
    }
    RestCopied(compar, a[..], lo, n1, n2, i1, i2, heads, buf[..]);
  }

  method Merge<T>(a: array<T>, lo: nat, n1: nat, n2: nat, buf: array<T>, compar: (T, T) -> int)
    requires lo + n1 + n2 <= a.Length && n1 + n2 <= buf.Length && a != buf
    modifies a, buf
    ensures MergedPart(compar, old(a[..]), lo, n1, n2, a[..])
  {
    ghost var s := a[..];
    var i1, i2 := MergeHeads(a, lo, n1, n2, buf, compar);
    CopyRest(a, lo, n1, n2, i1, i2, buf, compar);
    ghost var merged := buf[0..0 + (n1 + n2)];
    Copy(buf, 0, a, lo, n1 + n2);
    MergeDone(compar, s, lo, n1, n2, merged, a[..]);
  }

  lemma MergeDone<T>(compar: (T, T) -> int, s: seq<T>, lo: nat, n1: nat, n2: nat, r: seq<T>, after: seq<T>)
    requires lo + n1 + n2 <= |s| && MergeOf(compar, s[lo..lo + n1], s[lo + n1..lo + n1 + n2], r)
    requires after == Splice(s, lo, r)
    ensures MergedPart(compar, s, lo, n1, n2, after)
  {
    assert Asked(0, r);
  }

  /** What is left of one side goes behind the heads, and the buffer holds the merge. */
  lemma RestCopied<T>(compar: (T, T) -> int, s: seq<T>, lo: nat, n1: nat, n2: nat, i1: nat, i2: nat, heads: seq<T>, full: seq<T>)
    requires lo + n1 + n2 <= |s| && n1 + n2 <= |heads| == |full|
    requires i1 <= n1 && i2 <= n2 && (i1 == n1 || i2 == n2)
    requires HeadsMerged(compar, s[lo..lo + n1], s[lo + n1..lo + n1 + n2], i1, i2, heads)
    requires
      if i1 < n1 then full == Splice(heads, i1 + i2, s[lo + i1..lo + i1 + (n1 - i1)])
      else if i2 < n2 then full == Splice(heads, i1 + i2, s[lo + n1 + i2..lo + n1 + i2 + (n2 - i2)])
      else full == heads
    ensures MergeOf(compar, s[lo..lo + n1], s[lo + n1..lo + n1 + n2], full[0..0 + (n1 + n2)])
  {
    var x, y := s[lo..lo + n1], s[lo + n1..lo + n1 + n2];
    assert Asked(0, heads);
    MergedRest(compar, x, y, i1, i2);
    if i1 < n1 {
      assert s[lo + i1..lo + i1 + (n1 - i1)] == x[i1..] && y[i2..] == [];
    } else if i2 < n2 {
      assert s[lo + n1 + i2..lo + n1 + i2 + (n2 - i2)] == y[i2..] && x[i1..] == [];
    }
    assert full[0..0 + (n1 + n2)] == heads[..i1 + i2] + (x[i1..] + y[i2..]);
  }

  /** after is before with r written over the elements from lo on. */
  ghost predicate SplicedIn<T>(before: seq<T>, lo: nat, r: seq<T>, after: seq<T>)
    requires lo + |r| <= |before|
  {
    forall k: int :: Asked(k, after) ==> after == Splice(before, lo, r)
  }

  /** Two neighbouring parts rewritten one after the other, then both at once. */
  lemma PartsJoin<T>(s: seq<T>, lo: nat, n: nat, n1: nat, n2: nat, x: seq<T>, y: seq<T>, m: seq<T>, s1: seq<T>, s2: seq<T>, s3: seq<T>)
    requires n == n1 + n2 && lo + n <= |s| == |s1| == |s2| && |x| == n1 && |y| == n2 && |m| == n
    requires SplicedIn(s, lo, x, s1) && SplicedIn(s1, lo + n1, y, s2) && SplicedIn(s2, lo, m, s3)
    ensures s1[lo + n1..lo + n1 + n2] == s[lo..lo + n][n1..] && s[lo..lo + n1] == s[lo..lo + n][..n1]
    ensures s2[lo..lo + n1] == x && s2[lo + n1..lo + n1 + n2] == y
    ensures SplicedIn(s, lo, m, s3)
  {
    assert Asked(0, s1) && Asked(0, s2) && Asked(0, s3);
    assert s1[lo + n1..lo + n1 + n2] == s[lo + n1..lo + n1 + n2] == s[lo..lo + n][n1..];
    assert s2[..lo] == s1[..lo] == s[..lo] && s2[lo + n..] == s1[lo + n..] == s[lo + n..];
    assert Splice(s2, lo, m) == Splice(s, lo, m);
  }

  /** r is w sorted by merging halves. */
  ghost predicate SortOf<T>(compar: (T, T) -> int, w: seq<T>, r: seq<T>) {
    |r| == |w| && forall k: int :: Asked(k, r) ==> r == MergeSorted(compar, w)
  }

  ghost predicate MergeOf<T>(compar: (T, T) -> int, x: seq<T>, y: seq<T>, r: seq<T>) {
    |r| == |x| + |y| && forall k: int :: Asked(k, r) ==> r == Merged(compar, x, y)
  }

  /** Both halves sorted and merged. */
  lemma SortedWhole<T>(compar: (T, T) -> int, s: seq<T>, lo: nat, n: nat, n1: nat, n2: nat, s1: seq<T>, s2: seq<T>, s3: seq<T>)
    requires lo + n <= |s| == |s1| == |s2| && n > 2 && n1 == n / 2 && n2 == n - n1
    requires SortedPart(compar, s, lo, n1, s1) && SortedPart(compar, s1, lo + n1, n2, s2)
    requires MergedPart(compar, s2, lo, n1, n2, s3)
    ensures SortedPart(compar, s, lo, n, s3)
  {
    var x := SortedPartIs(compar, s, lo, n1, s1);
    var y := SortedPartIs(compar, s1, lo + n1, n2, s2);
    var m := MergedPartIs(compar, s2, lo, n1, n2, s3);
    PartsJoin(s, lo, n, n1, n2, x, y, m, s1, s2, s3);
    SortedHalves(compar, s[lo..lo + n], s[lo..lo + n1], s1[lo + n1..lo + n1 + n2], x, y, m);
    SortDone(compar, s, lo, n, m, s3);
  }

  lemma SortedPartIs<T>(compar: (T, T) -> int, s: seq<T>, lo: nat, n: nat, after: seq<T>) returns (r: seq<T>)
    requires lo + n <= |s| && SortedPart(compar, s, lo, n, after)
    ensures SortOf(compar, s[lo..lo + n], r) && SplicedIn(s, lo, r, after)
  {
    r := MergeSorted(compar, s[lo..lo + n]);
    assert Asked(0, after);
  }

  lemma MergedPartIs<T>(compar: (T, T) -> int, s: seq<T>, lo: nat, n1: nat, n2: nat, after: seq<T>) returns (r: seq<T>)
    requires lo + n1 + n2 <= |s| && MergedPart(compar, s, lo, n1, n2, after)
    ensures MergeOf(compar, s[lo..lo + n1], s[lo + n1..lo + n1 + n2], r) && SplicedIn(s, lo, r, after)
  {
    r := Merged(compar, s[lo..lo + n1], s[lo + n1..lo + n1 + n2]);
    assert Asked(0, after);
  }

  lemma SortedHalves<T>(compar: (T, T) -> int, w: seq<T>, a: seq<T>, b: seq<T>, x: seq<T>, y: seq<T>, m: seq<T>)
    requires |w| > 2 && a == w[..|w| / 2] && b == w[|w| / 2..]
    requires SortOf(compar, a, x) && SortOf(compar, b, y) && MergeOf(compar, x, y, m)
    ensures SortOf(compar, w, m)
  {
    assert Asked(0, x) && Asked(0, y) && Asked(0, m);
  }

  lemma SortDone<T>(compar: (T, T) -> int, s: seq<T>, lo: nat, n: nat, r: seq<T>, after: seq<T>)
    requires lo + n <= |s| && SortOf(compar, s[lo..lo + n], r) && SplicedIn(s, lo, r, after)
    ensures SortedPart(compar, s, lo, n, after)
  {
    assert Asked(0, r) && Asked(0, after);
  }

  /** One element is sorted, and two are when they stand in order or change places. */
  lemma SortedSmall<T>(compar: (T, T) -> int, s: seq<T>, lo: nat, n: nat, after: seq<T>)
    requires lo + n <= |s| && 1 <= n <= 2
    requires if n == 2 && Cmp(compar, s[lo], s[lo + 1]) > 0 then after == Splice(s, lo, [s[lo + 1], s[lo]]) else after == s
    ensures SortedPart(compar, s, lo, n, after)
  {
    assert Splice(s, lo, s[lo..lo + n]) == s;
  }

  /** Two elements: exchanged when out of order. */
  method OrderPair<T>(a: array<T>, lo: nat, buf: array<T>, compar: (T, T) -> int)
    requires lo + 2 <= a.Length && 2 <= buf.Length && a != buf
    modifies a, buf
    ensures SortedPart(compar, old(a[..]), lo, 2, a[..])
  {
    ghost var s := a[..];
    if Cmp(compar, a[lo], a[lo + 1]) > 0 {
      Swap(a, lo, buf);
    }
    SortedSmall(compar, s, lo, 2, a[..]);
  }

  /** One element, or two. */
  method SeparateSmall<T>(a: array<T>, lo: nat, n: nat, buf: array<T>, compar: (T, T) -> int)
    requires 0 < n <= 2 && lo + n <= a.Length && n <= buf.Length && a != buf
    modifies a, buf
    ensures SortedPart(compar, old(a[..]), lo, n, a[..])
  {
    if n == 1 {
      SortedSmall(compar, a[..], lo, n, a[..]);
    } else {
      OrderPair(a, lo, buf, compar);
    }
  }

  /** Both halves sorted in their place, then merged through the buffer. */
  method Separate<T>(a: array<T>, lo: nat, n: nat, buf: array<T>, compar: (T, T) -> int)
    requires 0 < n && lo + n <= a.Length && n <= buf.Length && a != buf
    modifies a, buf
    ensures SortedPart(compar, old(a[..]), lo, n, a[..])
    decreases n
  {
    if n <= 2 {
      SeparateSmall(a, lo, n, buf, compar);
      return;
    }
    ghost var s := a[..];
    var n1 := n / 2;
    var n2 := n - n1;
    Separate(a, lo, n1, buf, compar);
    ghost var s1 := a[..];
    Separate(a, lo + n1, n2, buf, compar);
    ghost var s2 := a[..];
    Merge(a, lo, n1, n2, buf, compar);
    SortedWhole(compar, s, lo, n, n1, n2, s1, s2, a[..]);
  }

  lemma SpliceAll<T>(s: seq<T>, r: seq<T>)
    requires |r| == |s|
    ensures Splice(s, 0, r) == r
  {
  }

  /** xcin_mergesort, with a scratch buffer of the array's length. */
  method MergeSort<T(0, !new)>(a: array<T>, compar: (T, T) -> int)
    requires Preorder(compar)
    modifies a
    ensures StablySorts(compar, old(a[..]), a[..])
    ensures multiset(a[..]) == multiset(old(a[..]))
  {
    if a.Length == 0 {
      return;
    }
    ghost var s := a[..];
    var buf := new T[a.Length];
    Separate(a, 0, a.Length, buf, compar);
    assert s[0..0 + |s|] == s && Asked(0, a[..]);
    SpliceAll(s, MergeSorted(compar, s));
    MergeSortStable(compar, s);
    StablePermutes(compar, s, a[..]);
  }
}
