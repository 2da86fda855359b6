/** Facts about exact division, kept apart from everything else. */
module Division {
  lemma QuotientIs(a: nat, s: nat, q: nat)
    requires s > 0 && a % s == 0 && a / s == q
    ensures a == s * q
  {
  }

  lemma OneQuotient(s: nat, q: int, p: int, r: nat)
    requires s * q == s * p + r && r < s
    ensures q == p && r == 0
  {
    assert s * (q - p) == r;
    Multiple(s, q - p);
  }

  lemma Multiple(s: nat, d: int)
    ensures d > 0 ==> s * d >= s
    ensures d < 0 ==> s * d <= 0 - s
  {
  }

  lemma DividendIs(a: nat, s: nat)
    requires s > 0
    ensures a == s * (a / s) + a % s && a % s < s
  {
  }

  lemma QuotientExactly(a: nat, s: nat, q: nat)
    requires s > 0
    ensures s * q == a <==> a % s == 0 && a / s == q
  {
    DividendIs(a, s);
    var p, r := a / s, a % s;
    if s * q == a {
      OneQuotient(s, q, p, r);
    }
  }

  lemma OnceAndTwice(s: nat, q: nat)
    requires s > 0 && 1 <= q <= 2
    ensures (s * q) % s == 0 && (s * q) / s == q
  {
    if q == 1 {
      assert s * q == s;
      SameDividend(s, s, s * q);
    } else {
      assert s * q == s + s;
      SameDividend(s, s + s, s * q);
    }
  }

  lemma SameDividend(s: nat, a: nat, b: nat)
    requires s > 0 && a == b && (a == s || a == s + s)
    ensures b % s == 0 && b / s == if a == s then 1 else 2
  {
  }
}
