/** Facts about whole quotients that the solver does not find by itself. */
module Division {

  lemma Times(x: nat, y: nat, m: nat)
    requires x <= y
    ensures x * m <= y * m
  {
  }

  lemma DivIs(w: nat, m: nat, q: nat)
    requires 0 <= w - q * m < m
    ensures w / m == q
  {
    var d := w / m;
    assert w == d * m + w % m;
    if d < q {
      Times(d + 1, q, m);
    } else if q < d {
      Times(q + 1, d, m);
    }
  }

  lemma DivTwice(n: nat, a: nat, b: nat)
    requires a > 0 && b > 0
    ensures a * b > 0 && n / (a * b) == n / a / b
  {
    var m := n / a;
    Whole(n, a);
    Whole(m, b);
    Nested(n, a, b, m, n % a, m / b, m % b);
    Within(m % b, b, n % a, a);
    DivIs(n, a * b, m / b);
  }

  lemma Whole(n: nat, a: nat)
    requires a > 0
    ensures n == n / a * a + n % a && 0 <= n % a < a
  {
  }

  lemma Nested(n: nat, a: nat, b: nat, m: nat, r: nat, q: nat, s: nat)
    requires n == m * a + r && m == q * b + s
    ensures n == q * (a * b) + (s * a + r)
  {
    assert m * a == q * b * a + s * a;
    assert q * b * a == q * (b * a);
  }

  lemma Within(s: nat, b: nat, r: nat, a: nat)
    requires s < b && r < a
    ensures 0 <= s * a + r < a * b
  {
    Times(s + 1, b, a);
    assert (s + 1) * a == s * a + a;
  }
}
