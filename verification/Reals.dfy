/** Products and quotients of reals, where the solver needs help. */
module Reals {

  lemma Product(a: real, b: real)
    requires a >= 0.0 && b >= 0.0
    ensures a * b >= 0.0 && (a > 0.0 && b > 0.0 ==> a * b > 0.0)
  {
  }

  lemma Cancel(a: real, b: real, c: real)
    requires c > 0.0
    ensures a * c == b * c ==> a == b
    ensures a * c <= b * c <==> a <= b
  {
    var d := b - a;
    assert b * c == a * c + d * c;
    if d >= 0.0 { Product(d, c); }
    if d <= 0.0 {
      Product(-d, c);
      assert (-d) * c == -(d * c);
    }
  }

  lemma Quotient(a: real, n: real)
    requires n != 0.0
    ensures (a / n) * n == a
  {
  }

  lemma QuotientOrder(a: real, b: real, n: real)
    requires n > 0.0
    ensures a <= b <==> a / n <= b / n
    ensures a < b <==> a / n < b / n
  {
    Quotient(a, n);
    Quotient(b, n);
    Cancel(a / n, b / n, n);
    Cancel(b / n, a / n, n);
  }

  lemma Quotients(a: real, b: real, n: real)
    requires n != 0.0
    ensures a / n + b / n == (a + b) / n
  {
  }
}
