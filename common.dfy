/** Small value helpers shared by the four games. */
module Common {

  datatype Option<T> = None | Some(value: T)

  function Abs(x: real): real { if x < 0.0 then -x else x }

  function Min(a: int, b: int): int { if a <= b then a else b }

  function Max(a: int, b: int): int { if a >= b then a else b }

  /** Python's int() of a float, and pygame's conversion of a float assigned to a
      Rect coordinate: truncation toward zero. */
  function Trunc(x: real): (r: int)
    ensures x >= 0.0 ==> r == x.Floor
    ensures x >= 0.0 ==> 0 <= r && r as real <= x < r as real + 1.0
    ensures x < 0.0 ==> r <= 0 && r as real - 1.0 < x <= r as real
  {
    if x >= 0.0 then x.Floor else -((-x).Floor)
  }

  /** Sign facts for products, which the solver does not always find alone. */
  lemma MulNonNeg(a: real, b: real)
    requires a >= 0.0 && b >= 0.0
    ensures a * b >= 0.0
  {
  }

  lemma MulPos(a: real, b: real)
    requires a > 0.0 && b > 0.0
    ensures a * b > 0.0
  {
  }

  /** Squaring is strictly monotone on the non-negative reals. */
  lemma SquareMonotone(a: real, b: real)
    requires 0.0 <= a && 0.0 <= b
    ensures a < b <==> a * a < b * b
  {
    if a < b {
      MulPos(b - a, b + a);
      assert (b - a) * (b + a) == b * b - a * a;
    } else {
      MulNonNeg(a - b, a + b);
      assert (a - b) * (a + b) == a * a - b * b;
    }
  }
}
