/** The hashed symbol table next to the flat symbol list (src/lib/siod/slib.c). */
module SymbolTable {

  /** Bitwise exclusive or. */
  function Xor(a: nat, b: nat): nat {
    if a == 0 && b == 0 then 0 else 2 * Xor(a / 2, b / 2) + (a % 2 + b % 2) % 2
  }

  /** A char widened to an unsigned long: the upper half of the bytes counts as negative. */
  function Widened(c: char): nat {
    var byte := c as int % 256;
    if byte < 128 then byte else 0x1_0000_0000_0000_0000 - 256 + byte
  }

  /** The hash of the first i characters. */
  function Hash(name: string, i: nat, n: nat): (h: nat)
    requires i <= |name| && 0 < n
    ensures h < n
  {
    if i == 0 then 0 else Xor(Hash(name, i - 1, n) * 17, Widened(name[i - 1])) % n
  }

  function Bucket(name: string, dim: nat): (h: nat)
    requires 0 < dim
    ensures h < dim
  {
    Hash(name, |name|, dim)
  }

  /** The symbols of a list are different cells of the heap. */
  ghost predicate Distinct(l: seq<nat>) {
    forall i, j :: 0 <= i < j < |l| ==> l[i] != l[j]
  }

  /** The flat list: every symbol cell once, and no two with one name. */
  ghost predicate Flat(oblist: seq<nat>, pname: seq<string>) {
    && Distinct(oblist)
    && (forall k: nat :: k in oblist <==> k < |pname|)
    && forall i: nat, j: nat :: i < j < |pname| ==> pname[i] != pname[j]
  }

  /** A bucket: every symbol cell with this hash once. */
  ghost predicate Holds(bucket: seq<nat>, pname: seq<string>, h: nat, dim: nat)
    requires 0 < dim
  {
    && Distinct(bucket)
    && forall k: nat :: k in bucket <==> k < |pname| && Bucket(pname[k], dim) == h
  }

  class Obarray {
    const dim: nat
    const obarray: array<seq<nat>>
    var oblist: seq<nat>
    var pname: seq<string>

    ghost predicate Valid()
      reads this, obarray
    {
      && Flat(oblist, pname)
      && (dim > 1 ==> obarray.Length == dim && forall h: nat :: h < dim ==> Holds(obarray[h], pname, h, dim))
    }

    constructor (dim: nat)
      ensures Valid() && fresh(obarray) && this.dim == dim && pname == []
    {
      this.dim := dim;
      obarray := new seq<nat>[dim](_ => []);
      oblist := [];
      pname := [];
    }

    /** strcmp down a list: the cell with this name. */
    method Search(list: seq<nat>, name: string) returns (found: bool, cell: nat)
      requires forall k :: k in list ==> k < |pname|
      ensures if found then cell < |pname| && cell in list && pname[cell] == name else forall k :: k in list ==> k < |pname| && pname[k] != name
    {
      found, cell := false, 0;
      var l := 0;
      while l < |list|
        invariant 0 <= l <= |list| && forall k :: k in list[..l] ==> k < |pname| && pname[k] != name
      {
        cell := list[l];
        assert cell in list;
        if pname[cell] == name {
          return true, cell;
        }
        assert list[..l + 1] == list[..l] + [cell];
        l := l + 1;
      }
    }

    /** gen_intern: the cell of a name, made when there is none. */
    method GenIntern(name: string) returns (cell: nat)
      requires Valid()
      modifies this, obarray
      ensures Valid() && cell < |pname| && pname[cell] == name
      ensures pname == if name in old(pname) then old(pname) else old(pname) + [name]
    {
      var hash := 0;
      var list := oblist;
      if dim > 1 {
        var i := 0;
        while i < |name|
          invariant 0 <= i <= |name| && hash == Hash(name, i, dim)
        {
          hash := Xor(hash * 17, Widened(name[i])) % dim;
          i := i + 1;
        }
        list := obarray[hash];
        assert Holds(list, pname, hash, dim);
      }
      var found, there := Search(list, name);
      if found {
        return there;
      }
      NotThere(pname, list, name, dim, oblist);
      cell := |pname|;
      Grown(oblist, pname, name);
      if dim > 1 {
        forall h: nat | h < dim
          ensures Holds(if h == hash then [cell] + list else obarray[h], pname + [name], h, dim)
        {
          BucketGrown(obarray[h], pname, name, h, dim);
        }
        obarray[hash] := [cell] + list;
      }
      pname := pname + [name];
      oblist := [cell] + oblist;
    }
  }

  lemma NotThere(pname: seq<string>, list: seq<nat>, name: string, dim: nat, oblist: seq<nat>)
    requires Flat(oblist, pname) && if dim > 1 then Holds(list, pname, Bucket(name, dim), dim) else list == oblist
    requires forall k :: k in list ==> k < |pname| && pname[k] != name
    ensures name !in pname
  {
    forall k: nat | k < |pname| ensures pname[k] != name {
      if k in list {
      } else {
        assert dim > 1 ==> Bucket(pname[k], dim) != Bucket(name, dim);
      }
    }
  }

  lemma Grown(oblist: seq<nat>, pname: seq<string>, name: string)
    requires Flat(oblist, pname) && name !in pname
    ensures Flat([|pname|] + oblist, pname + [name])
  {
    InCons(|pname|, oblist);
    forall i: nat, j: nat | i < j < |pname| + 1 ensures (pname + [name])[i] != (pname + [name])[j] {
      assert pname[i] in pname;
    }
  }

  /** What a list with one more cell in front has. */
  lemma InCons(x: nat, l: seq<nat>)
    requires Distinct(l) && x !in l
    ensures Distinct([x] + l) && forall k: nat :: k in [x] + l <==> k == x || k in l
  {
  }

  lemma BucketGrown(bucket: seq<nat>, pname: seq<string>, name: string, h: nat, dim: nat)
    requires 0 < dim && Holds(bucket, pname, h, dim)
    ensures Holds(if h == Bucket(name, dim) then [|pname|] + bucket else bucket, pname + [name], h, dim)
  {
    InCons(|pname|, bucket);
  }

  /** Looking a name up again gives the same cell, and another name another cell, whatever was interned between. */
  lemma NamesAreCells(oblist: seq<nat>, pname: seq<string>, later: seq<string>, laterList: seq<nat>, a: nat, b: nat)
    requires Flat(oblist, pname) && Flat(laterList, later) && pname <= later
    requires a < |pname| && b < |later|
    ensures a == b <==> pname[a] == later[b]
  {
    assert later[a] == pname[a];
  }
}
