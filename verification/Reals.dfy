/** Ordered-field facts the solver needs spelled out. */
module Reals {
  lemma Nonnegative(a: real, b: real)
    requires a >= 0.0 && b > 0.0
    ensures a / b >= 0.0
  {}

  lemma Assoc(a: real, b: real, c: real)
    ensures (a * b) * c == a * (b * c)
  {}

  lemma Distribute(a: real, x: real, y: real)
    ensures a * (x - y) == a * x - a * y && a * (x + y) == a * x + a * y
  {}

  lemma Positive(a: real, b: real)
    requires a > 0.0 && b > 0.0
    ensures a * b > 0.0
  {}

  lemma DivideBack(a: real, m: real)
    requires m != 0.0
    ensures a / m * m == a
  {}

  lemma NonnegativeProduct(a: real, b: real, c: real)
    requires a >= 0.0 && b >= 0.0 && c >= 0.0
    ensures a * b * c >= 0.0
  {
    assert a * b >= 0.0;
  }

  lemma Sign(a: real, d: real)
    requires a > 0.0
    ensures d > 0.0 ==> a * d > 0.0
    ensures d < 0.0 ==> a * d < 0.0
  {
    if d < 0.0 { assert a * (0.0 - d) > 0.0; assert a * (0.0 - d) == 0.0 - a * d; }
  }

  lemma Cancel(a: real, x: real, y: real)
    requires a > 0.0
    ensures a * x == a * y ==> x == y
    ensures a * x <= a * y <==> x <= y
    ensures a * x < a * y <==> x < y
  {
    Distribute(a, x, y);
    Sign(a, x - y);
  }

  lemma Monotone(a: real, x: real, y: real)
    requires a >= 0.0 && x <= y
    ensures a * x <= a * y
  {
    if a > 0.0 { Cancel(a, x, y); }
  }

  lemma SquareOrder(x: real, y: real)
    requires y >= 0.0
    ensures x * x <= y * y ==> x <= y
  {
    if x > y {
      Positive(x, x - y);
      assert x * (x - y) == x * x - x * y;
      assert y * (x - y) == x * y - y * y && y * (x - y) >= 0.0;
    }
  }
}
