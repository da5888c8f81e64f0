/** The arithmetic the Python code borrows from its runtime: `math.ceil` of a
    true division, `min`/`max`/`abs`, and `round(x, 2)`.  Floats are modelled as
    exact reals; `round` rounds the exact value half-to-even, as Python does for
    a value that is exactly representable. */
module Numeric {

  function Max(a: int, b: int): (m: int)
    ensures m >= a && m >= b && (m == a || m == b)
  {
    if a >= b then a else b
  }

  function MinReal(a: real, b: real): (m: real)
    ensures m <= a && m <= b && (m == a || m == b)
  {
    if a <= b then a else b
  }

  function AbsReal(x: real): (a: real)
    ensures a >= 0.0 && (a == x || a == -x)
  {
    if x < 0.0 then -x else x
  }

  /** `math.ceil(a / b)` for a positive divisor: the least q with q * b >= a. */
  function CeilDiv(a: int, b: int): (q: int)
    requires b > 0
    ensures q * b >= a
    ensures (q - 1) * b < a
  {
    var k := (-a) / b;
    assert -a == k * b + (-a) % b;
    -k
  }

  /** Rounds to the nearest integer, a tie going to the even neighbour. */
  function RoundHalfEven(t: real): (n: int)
    ensures t - 0.5 <= n as real <= t + 0.5
    ensures (n as real - t == 0.5 || t - n as real == 0.5) ==> n % 2 == 0
  {
    var f := t.Floor;
    var frac := t - f as real;
    if frac < 0.5 then f
    else if frac > 0.5 then f + 1
    else if f % 2 == 0 then f
    else f + 1
  }

  /** `round(x, 2)`: the nearest multiple of 0.01, a tie going to the even
      number of hundredths. */
  function Round2(x: real): (r: real)
    ensures (r * 100.0).Floor as real == r * 100.0
    ensures x - 0.005 <= r <= x + 0.005
    ensures (r - x == 0.005 || x - r == 0.005) ==> (r * 100.0).Floor % 2 == 0
    ensures x >= 0.0 ==> r >= 0.0
  {
    var n := RoundHalfEven(x * 100.0);
    assert (n as real / 100.0) * 100.0 == n as real;
    n as real / 100.0
  }

  lemma RoundHalfEvenMonotone(t: real, u: real)
    requires t <= u
    ensures RoundHalfEven(t) <= RoundHalfEven(u)
  {
  }

  /** Rounding never reverses an order. */
  lemma Round2Monotone(x: real, y: real)
    requires x <= y
    ensures Round2(x) <= Round2(y)
  {
    RoundHalfEvenMonotone(x * 100.0, y * 100.0);
  }

  /** A whole number is already a multiple of 0.01, so rounding keeps it. */
  lemma Round2OfWhole(n: int)
    ensures Round2(n as real) == n as real
  {
    assert RoundHalfEven(n as real * 100.0) == n * 100;
  }
}
