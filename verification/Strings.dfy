/** Where one string stands in another. */
module Strings {

  /** w stands in s at c. */
  predicate At(w: string, s: string, c: nat) {
    c + |w| <= |s| && forall i :: 0 <= i < |w| ==> s[c + i] == w[i]
  }

  lemma CharAt(w: string, s: string, c: nat, i: nat)
    requires At(w, s, c) && i < |w|
    ensures s[c + i] == w[i]
  {
  }

  lemma AtConcat(a: string, b: string, s: string, c: nat)
    ensures At(a + b, s, c) <==> At(a, s, c) && At(b, s, c + |a|)
  {
    if At(a + b, s, c) {
      forall i | 0 <= i < |a| ensures s[c + i] == a[i] {
        assert (a + b)[i] == a[i];
      }
      forall i | 0 <= i < |b| ensures s[c + |a| + i] == b[i] {
        assert (a + b)[|a| + i] == b[i];
      }
    }
    if At(a, s, c) && At(b, s, c + |a|) {
      forall i | 0 <= i < |a + b| ensures s[c + i] == (a + b)[i] {
        if i >= |a| {
          assert s[c + |a| + (i - |a|)] == b[i - |a|];
        }
      }
    }
  }
}
