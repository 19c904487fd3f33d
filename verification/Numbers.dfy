/** Integer arithmetic shared by the models. */
module Numbers {

  function Min(a: int, b: int): int { if a <= b then a else b }

  lemma RemainderUnique(a: int, n: int, q: int, r: int)
    requires n > 0 && a == n * q + r && 0 <= r < n
    ensures a % n == r
  {
    var d := a / n - q;
    assert n * d == r - a % n;
    assert d > 0 ==> n * d >= n;
    assert d < 0 ==> n * d <= -n;
  }
}
