/** Division with remainder, where the solver needs help with products. */
module Division {

  lemma TimesOrder(a: nat, b: nat, n: nat)
    ensures a <= b ==> n * a <= n * b
  {
    var d: int := b - a;
    assert n * b == n * a + n * d;
    assert d >= 0 ==> n * d >= 0;
  }

  lemma DivModUnique(a: nat, n: nat, q: nat, r: nat)
    requires n > 0 && r < n && a == n * q + r
    ensures a / n == q && a % n == r
  {
    var d := a / n - q;
    assert a == n * (a / n) + a % n;
    assert n * d == r - a % n;
    assert d >= 1 ==> n * d >= n;
    assert d <= -1 ==> n * d <= -(n as int);
  }

  lemma DivModNext(a: nat, n: nat)
    requires n > 0
    ensures a % n + 1 < n ==> (a + 1) / n == a / n && (a + 1) % n == a % n + 1
    ensures a % n + 1 == n ==> (a + 1) / n == a / n + 1 && (a + 1) % n == 0
  {
    var q, r := a / n, a % n;
    assert a == n * q + r;
    if r + 1 < n {
      DivModUnique(a + 1, n, q, r + 1);
    } else {
      assert n * (q + 1) == n * q + n;
      DivModUnique(a + 1, n, q + 1, 0);
    }
  }

  lemma ModAdd(a: nat, b: nat, n: nat)
    requires n > 0
    ensures (a % n + b) % n == (a + b) % n
  {
    var x := a % n + b;
    var q := a / n + x / n;
    assert a + b == n * (a / n) + x;
    assert x == n * (x / n) + x % n;
    assert n * q == n * (a / n) + n * (x / n);
    DivModUnique(a + b, n, q, x % n);
  }

  lemma DivBelow(n: nat, size: nat, k: nat)
    requires size > 0 && k < n * size
    ensures k / size < n
  {
    var d := k / size;
    assert k == size * d + k % size;
    TimesOrder(n, d, size);
  }

  /** Greater numbers have a greater quotient, or the same quotient and a greater remainder. */
  lemma DivOrder(i: nat, j: nat, size: nat)
    requires size > 0 && i < j
    ensures i / size < j / size || (i / size == j / size && i % size < j % size)
  {
    var a, b := i / size, j / size;
    assert i == size * a + i % size && j == size * b + j % size;
    assert size * (b + 1) == size * b + size;
    TimesOrder(b + 1, a, size);
  }
}
