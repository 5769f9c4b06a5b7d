/** Floor division by a positive interval: multiples, remainders and the gap between multiples. */
module Alignment {

  lemma Scale(a: int, b: int, n: int)
    requires a <= b && n >= 0
    ensures a * n <= b * n
  {
    assert (b - a) * n >= 0;
  }

  lemma DivModUnique(x: int, n: int, q: int, r: int)
    requires n >= 1 && x == q * n + r && 0 <= r < n
    ensures x / n == q && x % n == r
  {
    var d := x / n - q;
    assert d * n == r - x % n;
    if d >= 1 {
      Scale(1, d, n);
    } else if d <= -1 {
      Scale(d, -1, n);
    }
  }

  lemma Multiple(k: int, n: int)
    requires n >= 1
    ensures (k * n) % n == 0 && (k * n) / n == k
  {
    DivModUnique(k * n, n, k, 0);
  }

  lemma Shift(a: int, n: int)
    requires n >= 1
    ensures (a + n) % n == a % n
  {
    var q, r := a / n, a % n;
    assert a + n == (q + 1) * n + r;
    DivModUnique(a + n, n, q + 1, r);
  }

  /** Two multiples are equal or at least one interval apart. */
  lemma Apart(a: int, b: int, n: int)
    requires n >= 1 && a % n == 0 && b % n == 0 && a < b
    ensures a + n <= b
  {
    var p, q := a / n, b / n;
    MultipleOf(a, n);
    MultipleOf(b, n);
    if q < p + 1 {
      Scale(q, p, n);
    } else {
      Scale(p + 1, q, n);
      assert (p + 1) * n == p * n + n;
    }
  }

  lemma MultipleOf(a: int, n: int)
    requires n >= 1 && a % n == 0
    ensures a == (a / n) * n
  {
  }

  /** The greatest multiple not above `a`. */
  lemma Below(a: int, n: int)
    requires n >= 1
    ensures (a / n) * n <= a < (a / n) * n + n
  {
  }
}
