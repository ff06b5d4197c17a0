/**
 * Integer arithmetic as the subgraph's runtime performs it: 32-bit signed
 * integers (AssemblyScript `i32`) and the arbitrary-precision `BigInt` of the
 * graph runtime, whose division truncates toward zero.
 */
module Numeric {
  const I32_MIN: int := -0x8000_0000
  const I32_MAX: int := 0x7fff_ffff

  predicate IsI32(x: int) {
    I32_MIN <= x <= I32_MAX
  }

  function Abs(x: int): nat {
    if x < 0 then -x else x
  }

  /** Euclidean division of naturals brackets the dividend between multiples of the divisor. */
  lemma NatDivBounds(x: nat, y: nat)
    requires y > 0
    ensures (x / y) * y <= x < (x / y) * y + y
  {
    assert x == (x / y) * y + x % y;
  }

  /** Multiplying by a natural preserves order. */
  lemma MulMonotone(a: int, b: int, n: nat)
    requires a <= b
    ensures a * n <= b * n
  {
    assert b * n - a * n == (b - a) * n;
  }

  /** Euclidean division recovers the quotient of a dividend written as quotient, divisor and remainder. */
  lemma DivOfMultiplePlus(q: nat, n: nat, r: nat)
    requires r < n
    ensures (q * n + r) / n == q
  {
    var x := q * n + r;
    NatDivBounds(x, n);
    var d := x / n;
    if d < q {
      assert (d + 1) * n == d * n + n;
      MulMonotone(d + 1, q, n);
    } else if d > q {
      assert (q + 1) * n == q * n + n;
      MulMonotone(q + 1, d, n);
    }
  }

  /** Euclidean division of naturals gives a natural. */
  lemma NatDivNonNegative(x: nat, y: nat)
    requires y > 0
    ensures x / y >= 0
  {
    var d := x / y;
    assert x == d * y + x % y;
    if d < 0 {
      MulMonotone(d, -1, y);
    }
  }

  /**
   * Division rounding toward zero, as both `i32` division and `BigInt.div`
   * compute it (Dafny's own `/` is Euclidean). The magnitude of the quotient
   * is the floor of the magnitudes' quotient and its sign is the product of
   * the operands' signs.
   */
  function TruncDiv(a: int, b: int): (q: int)
    requires b != 0
    ensures Abs(q) == Abs(a) / Abs(b)
    ensures Abs(q) * Abs(b) <= Abs(a) < Abs(q) * Abs(b) + Abs(b)
    ensures q != 0 ==> ((q < 0) <==> ((a < 0) != (b < 0)))
    ensures 0 <= a && 0 < b ==> q == a / b
  {
    var x, y := Abs(a), Abs(b);
    NatDivNonNegative(x, y);
    NatDivBounds(x, y);
    var m := x / y;
    if (a < 0) == (b < 0) then m else -m
  }

  /** A non-negative numerator below a positive divisor truncates to zero. */
  lemma TruncDivOfSmaller(a: int, b: int)
    requires 0 <= a < b
    ensures TruncDiv(a, b) == 0
  {
    var q := TruncDiv(a, b);
    assert q == a / b;
    NatDivNonNegative(a, b);
    NatDivBounds(a, b);
    if q >= 1 {
      MulMonotone(1, q, b);
    }
  }
}
