/** The contracts' fixed-point helpers: Solidity integer division rounds
    down, and `roundedDiv` rounds half up. */
module FixedPoint {

  /** `roundedDiv(a, b) = (a + b / 2) / b`: the integer nearest to a / b,
      a tie rounding up (BigNumber's ROUND_HALF_UP on the exact quotient). */
  function RoundedDiv(a: nat, b: nat): (r: nat)
    requires b > 0
    ensures (2 * r - 1) * b <= 2 * a < (2 * r + 1) * b
  {
    var q := (a + b / 2) / b;
    var rem := (a + b / 2) % b;
    assert a + b / 2 == q * b + rem && 0 <= rem < b;
    assert b == 2 * (b / 2) + b % 2;
    assert (2 * q - 1) * b == 2 * (q * b) - b;
    assert (2 * q + 1) * b == 2 * (q * b) + b;
    q
  }

  /** The half-up bounds determine the rounded quotient: any integer within
      half a unit of a / b (ties up) is `RoundedDiv(a, b)`. */
  lemma RoundedDivUnique(a: nat, b: nat, r: int)
    requires b > 0
    requires (2 * r - 1) * b <= 2 * a < (2 * r + 1) * b
    ensures r == RoundedDiv(a, b)
  {
    var q := RoundedDiv(a, b);
    assert (2 * r - 1) * b < (2 * q + 1) * b;
    assert (2 * q - 1) * b < (2 * r + 1) * b;
    if r > q {
      assert 2 * r - 1 >= 2 * q + 1;
      MulMonotone(2 * q + 1, 2 * r - 1, b);
    } else if r < q {
      assert 2 * q - 1 >= 2 * r + 1;
      MulMonotone(2 * r + 1, 2 * q - 1, b);
    }
  }

  /** Rounding half up is monotonic in the dividend. */
  lemma RoundedDivMonotone(a1: nat, a2: nat, b: nat)
    requires b > 0 && a1 <= a2
    ensures RoundedDiv(a1, b) <= RoundedDiv(a2, b)
  {
    var q1, q2 := RoundedDiv(a1, b), RoundedDiv(a2, b);
    if q1 > q2 {
      assert 2 * q1 - 1 >= 2 * q2 + 1;
      MulMonotone(2 * q2 + 1, 2 * q1 - 1, b);
      assert false;
    }
  }

  /** Floor division of a product by a positive scale: `x * y / s` never
      exceeds `x` when `y <= s`. */
  lemma ScaledDownAtMost(x: nat, y: nat, s: nat)
    requires s > 0 && y <= s
    ensures x * y / s <= x
  {
    MulMonotone(y, s, x);
    assert y * x == x * y && s * x == x * s;
    DivMonotone(x * y, x * s, s);
    DivUnique(x * s, s, x, 0);
  }

  /** Adding whole multiples of the divisor adds whole units to a floor quotient. */
  lemma DivAddMultiple(x: nat, k: nat, s: nat)
    requires s > 0
    ensures (x + k * s) / s == x / s + k
  {
    var q, rem := x / s, x % s;
    assert x == q * s + rem;
    assert x + k * s == (q + k) * s + rem;
    DivUnique(x + k * s, s, q + k, rem);
  }

  /** Floor division is the unique quotient with a remainder below the divisor. */
  lemma DivUnique(n: nat, s: nat, q: nat, rem: nat)
    requires s > 0 && rem < s && n == q * s + rem
    ensures n / s == q
  {
    var q', rem' := n / s, n % s;
    assert n == q' * s + rem';
    if q' < q {
      MulMonotone(q' + 1, q, s);
    } else if q' > q {
      MulMonotone(q + 1, q', s);
    }
  }

  lemma MulMonotone(x: int, y: int, b: nat)
    requires x <= y
    ensures x * b <= y * b
  {
  }

  lemma DivMonotone(x: nat, y: nat, s: nat)
    requires s > 0 && x <= y
    ensures x / s <= y / s
  {
    var qx, qy := x / s, y / s;
    assert x == qx * s + x % s && y == qy * s + y % s;
    if qx > qy {
      MulMonotone(qy + 1, qx, s);
    }
  }
}
