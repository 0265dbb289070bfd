/** Facts about division by a variable. */
module Division {

  lemma DivisionIsUnique(n: int, d: nat, q: int, r: int)
    requires d > 0 && 0 <= r < d && n == q * d + r
    ensures n / d == q && n % d == r
  {
    var q', r' := n / d, n % d;
    assert (q - q') * d == r' - r;
    if q > q' {
      AtLeast(q - q', d);
    } else if q < q' {
      AtLeast(q' - q, d);
    }
  }

  lemma AtLeast(k: nat, d: nat)
    requires k >= 1
    ensures k * d >= d
  {
  }

  /** Two different multiples of d are at least d apart. */
  lemma MultiplesApart(m: nat, n: nat, d: nat)
    requires d > 0 && m % d == 0 && n % d == 0
    ensures m < n ==> m + d <= n
  {
    if m < n {
      var a, b := m / d, n / d;
      assert (b - a) * d == n - m;
      if b <= a {
        NotPositive(b - a, d);
      } else {
        AtLeast(b - a, d);
      }
    }
  }

  lemma NotPositive(k: int, d: nat)
    requires k <= 0
    ensures k * d <= 0
  {
  }
}
