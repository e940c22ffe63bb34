/** Small facts about products and quotients of reals, each with a contract of
    its own, so that the proofs that use them stay linear. */
module Reals {

  function Mul(a: real, b: real): (r: real)
    ensures a >= 0.0 && b >= 0.0 ==> r >= 0.0
    ensures a > 0.0 && b > 0.0 ==> r > 0.0
  {
    a * b
  }

  function Square(v: real): (r: real)
    ensures r >= 0.0
    ensures v != 0.0 ==> r > 0.0
  {
    assert Mul(-v, -v) == Mul(v, v);
    Mul(v, v)
  }

  function Abs(v: real): (r: real)
    ensures r >= 0.0
  {
    if v < 0.0 then -v else v
  }

  function Min(a: real, b: real): real {
    if a <= b then a else b
  }

  function Max(a: real, b: real): real {
    if a >= b then a else b
  }

  function Ceil(r: real): int {
    -((-r).Floor)
  }

  lemma CeilBounds(r: real)
    ensures r <= Ceil(r) as real < r + 1.0
  {}

  function Clamp(v: real, low: real, high: real): (r: real)
    requires low <= high
    ensures low <= r <= high
  {
    if v < low then low else if v > high then high else v
  }

  lemma SquareMonotone(a: real, b: real)
    requires 0.0 <= a
    ensures a < b ==> Square(a) < Square(b)
    ensures a <= b ==> Square(a) <= Square(b)
  {
    assert Mul(b - a, b + a) == Square(b) - Square(a);
  }

  lemma SquareBound(v: real, m: real)
    requires m >= 0.0 && Square(v) <= Square(m)
    ensures -m <= v <= m
  {
    assert Square(-v) == Square(v);
    SquareMonotone(m, v);
    SquareMonotone(m, -v);
  }

  /** Scaling by a factor in [0, 1]. */
  lemma ScaleDown(a: real, t: real)
    requires a >= 0.0 && 0.0 <= t <= 1.0
    ensures 0.0 <= Mul(a, t) <= a
  {
    assert Mul(a, 1.0 - t) == a - Mul(a, t);
  }

  /** A quotient is the number its denominator turns back into the numerator. */
  lemma Quotient(a: real, b: real)
    requires b > 0.0
    ensures (a / b) * b == a
    ensures 0.0 <= a ==> 0.0 <= a / b
    ensures a <= b ==> a / b <= 1.0
    ensures a < b ==> a / b < 1.0
  {
    var q := a / b;
    assert q * b == a;
    assert Mul(-q, b) == -a;
    assert Mul(q - 1.0, b) == a - b;
    assert Mul(1.0 - q, b) == b - a;
    if q == 1.0 { assert a == b; }
  }

  lemma Cancel(b: real, q: real)
    requires b > 0.0
    ensures Mul(b, q) / b == q
  {
    var r := Mul(b, q) / b;
    assert Mul(b, r) == Mul(b, q);
    assert Mul(b, r - q) == 0.0;
    assert Mul(b, q - r) == 0.0;
  }
}
