/** Division with remainder. */
module Arithmetic {

  lemma TimesAtLeast(m: int, d: int)
    requires m >= 0
    ensures d >= 1 ==> m * d >= m
    ensures d <= -1 ==> m * d <= -m
  {
  }

  /** A number is divided in one way only. */
  lemma RemainderIsUnique(n: int, m: int, q: int, r: int)
    requires 0 <= r < m && n == m * q + r
    ensures n % m == r && n / m == q
  {
    var d := n / m - q;
    assert m * d == r - n % m;
    TimesAtLeast(m, d);
  }

  /** One more: the remainder goes up, or starts again at zero. */
  lemma NextRemainder(n: int, m: int)
    requires m > 0
    ensures (n + 1) % m == if n % m + 1 == m then 0 else n % m + 1
  {
    var q, r := n / m, n % m;
    if r + 1 == m {
      assert m * (q + 1) == m * q + m;
      RemainderIsUnique(n + 1, m, q + 1, 0);
    } else {
      RemainderIsUnique(n + 1, m, q, r + 1);
    }
  }

  /** A multiple less: the remainder stays. */
  lemma SameRemainder(n: int, m: int)
    requires m > 0
    ensures (n - m) % m == n % m
  {
    var q, r := n / m, n % m;
    assert m * (q - 1) == m * q - m;
    RemainderIsUnique(n - m, m, q - 1, r);
  }
}
