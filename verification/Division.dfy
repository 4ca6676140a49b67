// Facts about division with a remainder.
module Division {

  lemma {:induction false} AtLeastOnce(k: int, n: int)
    requires k >= 1 && n > 0
    ensures k * n >= n
    decreases k
  {
    if k > 1 {
      AtLeastOnce(k - 1, n);
      assert k * n == (k - 1) * n + n;
    }
  }

  lemma Apart(k: int, n: int)
    requires n > 0
    ensures k >= 1 ==> k * n >= n
    ensures k <= -1 ==> k * n <= -n
  {
    if k >= 1 { AtLeastOnce(k, n); }
    if k <= -1 {
      AtLeastOnce(-k, n);
      assert -k * n == -(k * n);
    }
  }

  // Quotient and remainder are determined by the equation between them.
  lemma Quotient(a: int, n: int, q: int, r: int)
    requires n > 0 && a == q * n + r && 0 <= r < n
    ensures a / n == q && a % n == r
  {
    var p, s := a / n, a % n;
    assert a == p * n + s;
    Apart(q - p, n);
    assert (q - p) * n == q * n - p * n;
  }

  lemma Decompose(a: int, n: int)
    requires n > 0
    ensures a == a / n * n + a % n && 0 <= a % n < n
  {
  }

  // Adding multiples changes the quotient only.
  lemma AddMultiple(a: int, k: int, n: int)
    requires n > 0
    ensures (a + k * n) % n == a % n && (a + k * n) / n == a / n + k
  {
    Decompose(a, n);
    assert (a / n + k) * n == a / n * n + k * n;
    Quotient(a + k * n, n, a / n + k, a % n);
  }

  lemma Ordered(j: int, k: int, n: int)
    requires n > 0 && j < k
    ensures j * n + n <= k * n
  {
    AtLeastOnce(k - j, n);
    assert (k - j) * n == k * n - j * n;
  }
}
