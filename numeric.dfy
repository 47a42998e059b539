/** Java's integer conversions, written out over Dafny's unbounded integers. */
module JavaInt {

  function Abs(x: int): nat { if x < 0 then -x else x }

  /** Java's `(int)` of an exact quotient: division that truncates toward zero
      (Dafny's own `/` is Euclidean). */
  function TruncDiv(a: int, b: int): (q: int)
    requires b != 0
    ensures Abs(q) * Abs(b) <= Abs(a) < (Abs(q) + 1) * Abs(b)
    ensures q > 0 ==> (a < 0) == (b < 0)
    ensures q < 0 ==> (a < 0) != (b < 0)
  {
    var m := Abs(a) / Abs(b);
    FloorBounds(Abs(a), Abs(b));
    if (a < 0) == (b < 0) then m else -m
  }

  /** The Euclidean quotient of naturals brackets the dividend. */
  lemma FloorBounds(n: nat, d: nat)
    requires d > 0
    ensures (n / d) * d <= n < (n / d + 1) * d
  {
    var m := n / d;
    assert n == m * d + n % d;
    assert (m + 1) * d == m * d + d;
  }

  /** For a non-negative numerator and a positive denominator truncation is
      the floor, i.e. Dafny's `/`. */
  lemma TruncDivIsFloor(a: int, b: int)
    requires a >= 0 && b > 0
    ensures TruncDiv(a, b) == a / b
  {
  }

  /** Two non-positive operands: the quotient of their magnitudes. */
  lemma TruncDivNonPositive(a: int, b: int)
    requires a <= 0 && b < 0
    ensures TruncDiv(a, b) == (-a) / (-b)
  {
  }

  /** Dafny's `/` by a positive divisor is monotone on naturals. */
  lemma DivMonotone(n: nat, m: nat, d: nat)
    requires n <= m && d > 0
    ensures n / d <= m / d
  {
    FloorBounds(n, d);
    FloorBounds(m, d);
    MulCancel(n / d, m / d + 1, d);
  }

  /** A positive factor can be cancelled from a strict inequality. */
  lemma MulCancel(a: int, b: int, d: int)
    requires d > 0 && a * d < b * d
    ensures a < b
  {
    assert (b - a) * d == b * d - a * d;
  }

  /** A positive factor can be cancelled from a non-strict inequality. */
  lemma MulLeCancel(a: int, b: int, d: int)
    requires d > 0 && a * d <= b * d
    ensures a <= b
  {
    assert (b - a) * d == b * d - a * d;
  }

  lemma MulSucc(c: int, n: int)
    ensures c * n + c == c * (n + 1)
  {
  }

  /** Truncation of a fraction below one of a non-negative quantity never
      exceeds that quantity. */
  lemma {:induction false} TruncScaleBound(p: int, num: int, den: int)
    requires p >= 0 && 0 <= num <= den && den > 0
    ensures 0 <= TruncDiv(num * p, den) <= p
  {
    assert num * p <= den * p by {
      assert (den - num) * p >= 0;
    }
    TruncDivIsFloor(num * p, den);
  }
}
