/** Singly linked lists through a store of records: a pointer is a place in the store, and NULL is -1. */
module LinkedStore {

  const NULL := -1

  function NodeAt(nodes: seq<nat>, i: int): int {
    if 0 <= i < |nodes| then nodes[i] else NULL
  }

  ghost predicate Within(nodes: seq<nat>, size: nat) {
    forall i :: 0 <= i < |nodes| ==> nodes[i] < size
  }

  ghost predicate Distinct(nodes: seq<nat>) {
    forall i, j :: 0 <= i < j < |nodes| ==> nodes[i] != nodes[j]
  }

  /** The links from head on run through nodes. */
  ghost predicate Chain(next: seq<int>, head: int, nodes: seq<nat>) {
    && Within(nodes, |next|)
    && head == NodeAt(nodes, 0)
    && forall i :: 0 <= i < |nodes| ==> next[nodes[i]] == NodeAt(nodes, i + 1)
  }

  /** Every record is on one of the two lists, and once. */
  ghost predicate Parted(a: seq<nat>, b: seq<nat>, size: nat) {
    Distinct(a + b) && |a| + |b| == size && Within(a, size) && Within(b, size)
  }

  lemma OneOf(a: seq<nat>, b: seq<nat>, size: nat)
    requires Parted(a, b, size)
    ensures Distinct(a) && Distinct(b) && forall x :: x in a ==> x !in b
  {
    forall i, j | 0 <= i < j < |a| ensures a[i] != a[j] {
      assert (a + b)[i] != (a + b)[j];
    }
    forall i, j | 0 <= i < j < |b| ensures b[i] != b[j] {
      assert (a + b)[|a| + i] != (a + b)[|a| + j];
    }
    forall i, j | 0 <= i < |a| && 0 <= j < |b| ensures a[i] != b[j] {
      assert (a + b)[i] != (a + b)[|a| + j];
    }
  }

  /** A list without its node at i. */
  function Without(nodes: seq<nat>, i: nat): (r: seq<nat>)
    requires i < |nodes|
    ensures |r| == |nodes| - 1 && forall k :: 0 <= k < |r| ==> r[k] == if k < i then nodes[k] else nodes[k + 1]
  {
    nodes[..i] + nodes[i + 1..]
  }

  /** Unlinking a node: the one before it, or the head, skips it. */
  lemma Unlinked(next: seq<int>, head: int, nodes: seq<nat>, i: nat, next': seq<int>, head': int)
    requires Chain(next, head, nodes) && Distinct(nodes) && i < |nodes|
    requires
      if i > 0 then head' == head && next' == next[nodes[i - 1] := next[nodes[i]]]
      else head' == next[nodes[i]] && next' == next
    ensures Chain(next', head', Without(nodes, i))
  {
    var r := Without(nodes, i);
    assert next[nodes[i]] == NodeAt(nodes, i + 1);
    forall k | 0 <= k < |r| ensures next'[r[k]] == NodeAt(r, k + 1) {
      if k + 1 != i {
        var m := if k < i then k else k + 1;
        assert r[k] == nodes[m] && (i > 0 ==> nodes[m] != nodes[i - 1]);
        assert next[nodes[m]] == NodeAt(nodes, m + 1);
      }
    }
  }

  /** A list does not change when a link off it does. */
  lemma Kept(next: seq<int>, head: int, nodes: seq<nat>, a: nat, to: int)
    requires Chain(next, head, nodes) && a < |next| && a !in nodes
    ensures Chain(next[a := to], head, nodes)
  {
    forall i | 0 <= i < |nodes| ensures next[a := to][nodes[i]] == NodeAt(nodes, i + 1) {
      assert nodes[i] in nodes;
    }
  }

  lemma Pushed(next: seq<int>, head: int, nodes: seq<nat>, a: nat)
    requires Chain(next, head, nodes) && a < |next| && a !in nodes
    ensures Chain(next[a := head], a, [a] + nodes)
  {
    Kept(next, head, nodes, a, head);
    var more := [a] + nodes;
    forall i | 0 <= i < |more| ensures next[a := head][more[i]] == NodeAt(more, i + 1) {
      if i > 0 {
        assert next[a := head][nodes[i - 1]] == NodeAt(nodes, i);
      }
    }
  }

  lemma Popped(next: seq<int>, head: int, nodes: seq<nat>)
    requires Chain(next, head, nodes) && nodes != []
    ensures Chain(next, next[nodes[0]], nodes[1..])
  {
    assert next[nodes[0]] == NodeAt(nodes, 1);
    forall i | 0 <= i < |nodes[1..]| ensures next[nodes[1..][i]] == NodeAt(nodes[1..], i + 1) {
      assert next[nodes[i + 1]] == NodeAt(nodes, i + 2);
    }
  }

  lemma Longer(next: seq<int>, head: int, nodes: seq<nat>, more: seq<int>)
    requires Chain(next, head, nodes) && next <= more
    ensures Chain(more, head, nodes)
  {
    forall i | 0 <= i < |nodes| ensures more[nodes[i]] == NodeAt(nodes, i + 1) {
      assert more[nodes[i]] == next[nodes[i]];
    }
  }

  /** A record goes from a place on one list to the front of the other. */
  lemma Moved(a: seq<nat>, b: seq<nat>, size: nat, i: nat)
    requires Parted(a, b, size) && i < |a|
    ensures Parted(Without(a, i), [a[i]] + b, size) && a[i] !in Without(a, i) && a[i] !in b
  {
    var c, d := Without(a, i), [a[i]] + b;
    OneOf(a, b, size);
    assert a[i] in a;
    forall j, k | 0 <= j < k < |c + d| ensures (c + d)[j] != (c + d)[k] {
      if k < |c| {
      } else if j >= |c| {
        if j == |c| {
          assert b[k - |c| - 1] in b;
        }
      } else {
        assert c[j] in a;
        if k > |c| {
          assert b[k - |c| - 1] in b;
        }
      }
    }
  }

  lemma Added(a: seq<nat>, b: seq<nat>, size: nat)
    requires Parted(a, b, size)
    ensures Parted([size] + a, b, size + 1) && size !in a && size !in b
  {
    var c := [size] + a;
    assert c + b == [size] + (a + b);
    forall k | 0 <= k < |a + b| ensures (a + b)[k] < size {
    }
  }

  lemma Swapped(a: seq<nat>, b: seq<nat>, size: nat)
    requires Parted(a, b, size)
    ensures Parted(b, a, size)
  {
    OneOf(a, b, size);
    forall i, j | 0 <= i < j < |b + a| ensures (b + a)[i] != (b + a)[j] {
      if i < |b| <= j {
        assert a[j - |b|] in a && b[i] in b;
      }
    }
  }

  /** Two lists through one store: the first node of the free list goes to the front of the list in use. */
  lemma Reused(next: seq<int>, list: int, free: int, used: seq<nat>, spare: seq<nat>)
    requires Chain(next, list, used) && Chain(next, free, spare) && Parted(used, spare, |next|) && spare != []
    ensures var a := spare[0]; var more := next[a := list];
      && a !in used && Chain(more, a, [a] + used) && Chain(more, next[a], spare[1..]) && Parted([a] + used, spare[1..], |next|)
  {
    var a := spare[0];
    OneOf(used, spare, |next|);
    assert a in spare;
    Popped(next, free, spare);
    Swapped(used, spare, |next|);
    Moved(spare, used, |next|, 0);
    assert Without(spare, 0) == spare[1..];
    Swapped(spare[1..], [a] + used, |next|);
    Kept(next, next[a], spare[1..], a, list);
    Pushed(next, list, used, a);
  }

  /** A record added to the store goes to the front of the list in use. */
  lemma Made(next: seq<int>, list: int, free: int, used: seq<nat>, spare: seq<nat>)
    requires Chain(next, list, used) && Chain(next, free, spare) && Parted(used, spare, |next|)
    ensures var a := |next|; var more := next + [list];
      a !in used && Chain(more, a, [a] + used) && Chain(more, free, spare) && Parted([a] + used, spare, |next| + 1)
  {
    var a := |next|;
    var more := next + [NULL];
    Longer(next, list, used, more);
    Longer(next, free, spare, more);
    Added(used, spare, |next|);
    Kept(more, free, spare, a, list);
    Pushed(more, list, used, a);
    assert more[a := list] == next + [list];
  }

  /** The node at i leaves the list in use, and goes to the front of the free list. */
  lemma Dropped(next: seq<int>, list: int, free: int, used: seq<nat>, spare: seq<nat>, i: nat, unlinked: seq<int>, list': int)
    requires Chain(next, list, used) && Chain(next, free, spare) && Parted(used, spare, |next|) && i < |used|
    requires
      if i > 0 then list' == list && unlinked == next[used[i - 1] := next[used[i]]]
      else list' == next[used[i]] && unlinked == next
    ensures var a := used[i]; var more := unlinked[a := free];
      Chain(more, list', Without(used, i)) && Chain(more, a, [a] + spare) && Parted(Without(used, i), [a] + spare, |next|)
  {
    var a := used[i];
    OneOf(used, spare, |next|);
    assert a in used && (i > 0 ==> used[i - 1] in used);
    Unlinked(next, list, used, i, unlinked, list');
    if i > 0 {
      Kept(next, free, spare, used[i - 1], next[a]);
    }
    Moved(used, spare, |next|, i);
    Kept(unlinked, list', Without(used, i), a, free);
    Pushed(unlinked, free, spare, a);
  }
}
