/** Facts about whole numbers used by several models. */
module Arith {

  lemma DivModUnique(a: int, n: int, q: int, r: int)
    requires 0 <= r < n && a == q * n + r
    ensures a / n == q && a % n == r
  {
    var d := a / n - q;
    assert a == a / n * n + a % n;
    assert d * n == r - a % n;
    assert d >= 1 ==> d * n >= n;
    assert d <= -1 ==> d * n <= -n;
  }

  lemma ModSubtract(a: int, n: int)
    requires n > 0
    ensures a % n == (a - n) % n
  {
    assert a == a / n * n + a % n;
    assert a - n == (a / n - 1) * n + a % n;
    DivModUnique(a - n, n, a / n - 1, a % n);
  }

  /** n * j by repeated addition, for proofs that take one n at a time. */
  function Times(n: nat, j: nat): nat {
    if j == 0 then 0 else n + Times(n, j - 1)
  }

  lemma {:induction false} TimesIsProduct(n: nat, j: nat)
    ensures Times(n, j) == n * j
  {
    if j > 0 {
      TimesIsProduct(n, j - 1);
      assert n * j == n * (j - 1) + n;
    }
  }
}
