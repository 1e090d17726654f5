/**
 * The fixed-width integer types the game is written in, and C++'s integer
 * division, which Dafny's own `/` does not match on negative operands.
 */
module CppInt {

  /** `uint8_t`: map widths, heights and tile-type bytes. */
  type uint8 = x: int | 0 <= x < 0x100

  /** `int16_t`: every position, velocity and tile coordinate of the game. */
  type int16 = x: int | -0x8000 <= x < 0x8000

  predicate IsInt16(x: int) {
    -0x8000 <= x < 0x8000
  }

  /**
   * C++ `a / b`: the quotient rounded toward zero, as the number of whole
   * `b`s that fit between zero and `a`, negated for a negative `a`.
   * Dafny's `/` is Euclidean and rounds a negative dividend down instead.
   */
  function TruncDiv(a: int, b: int): (q: int)
    requires b > 0
    ensures a >= 0 ==> q >= 0
    ensures a <= 0 ==> q <= 0
    decreases if a < 0 then -a else a
  {
    if -b < a < b then 0
    else if a >= b then TruncDiv(a - b, b) + 1
    else TruncDiv(a + b, b) - 1
  }

  /**
   * The truncated quotient has the dividend's sign, is no larger in
   * magnitude, and brackets the dividend between consecutive multiples of
   * `b` on the side of zero.
   */
  lemma {:induction false} TruncDivBrackets(a: int, b: int)
    requires b > 0
    ensures var q := TruncDiv(a, b);
      && (a >= 0 ==> 0 <= q <= a && q * b <= a < q * b + b)
      && (a < 0 ==> a <= q <= 0 && q * b - b < a <= q * b)
    decreases if a < 0 then -a else a
  {
    if a >= b {
      TruncDivBrackets(a - b, b);
      MulStep(TruncDiv(a - b, b), b);
    } else if a <= -b {
      TruncDivBrackets(a + b, b);
      MulStep(TruncDiv(a + b, b) - 1, b);
    }
  }

  /**
   * The truncated quotient is Dafny's `/` on a non-negative dividend and
   * the negated quotient of the magnitude on a negative one.
   */
  lemma TruncDivByEuclidean(a: int, b: int)
    requires b > 0
    ensures a >= 0 ==> TruncDiv(a, b) == a / b
    ensures a < 0 ==> TruncDiv(a, b) == -((-a) / b)
  {
    var n: nat := if a < 0 then -a else a;
    var q := TruncDiv(n, b);
    TruncDivBrackets(n, b);
    EuclideanQuotient(n, b);
    QuotientUnique(n, b, q, n / b);
    if a < 0 {
      TruncDivNegate(n, b);
    }
  }

  /** A negative dividend's quotient is the negated quotient of its magnitude. */
  lemma {:induction false} TruncDivNegate(n: nat, b: int)
    requires b > 0
    ensures TruncDiv(-(n as int), b) == -TruncDiv(n, b)
    decreases n
  {
    if n >= b {
      TruncDivNegate(n - b, b);
    }
  }

  /** At most one multiple of `b` brackets `n` from below within `b`. */
  lemma QuotientUnique(n: int, b: int, q1: int, q2: int)
    requires b > 0
    requires q1 * b <= n < q1 * b + b
    requires q2 * b <= n < q2 * b + b
    ensures q1 == q2
  {
    if q1 < q2 {
      MulMonotone(q1 + 1, q2, b);
    } else if q2 < q1 {
      MulMonotone(q2 + 1, q1, b);
    }
  }

  /** Dafny's quotient of a natural number brackets it between multiples of `b`. */
  lemma EuclideanQuotient(n: nat, b: int)
    requires b > 0
    ensures 0 <= n / b <= n
    ensures (n / b) * b <= n < (n / b) * b + b
  {
    var q, r := n / b, n % b;
    assert n == q * b + r && 0 <= r < b;
    MulMonotone(q, -1, b);
    MulMonotone(1, b, q);
  }

  /** One more factor adds one more `b`. */
  lemma MulStep(q: int, b: int)
    ensures (q + 1) * b == q * b + b
  {
  }

  /** Multiplying by a non-negative factor keeps the order. */
  lemma {:induction false} MulMonotone(a: int, c: int, w: int)
    ensures 0 <= w && a <= c ==> a * w <= c * w
    decreases if a <= c then c - a else 0
  {
    if 0 <= w && a < c {
      MulMonotone(a, c - 1, w);
      assert (c - 1) * w + w == c * w;
    }
  }

  /** Truncation and Euclidean division part ways just below zero. */
  lemma TruncDivOfMinusOne(b: int)
    requires b > 1
    ensures TruncDiv(-1, b) == 0
    ensures -1 / b == -1
  {
    TruncDivByEuclidean(-1, b);
  }
}
