/**
 * Real-number helpers and the transcendental functions the design formulas use.
 *
 * The source evaluates square roots, pi and powers of 0.658 in floating point.
 * The model keeps them uninterpreted: an `Analytic` value carries one square-root
 * function, one value of pi and one function x |-> 0.658^x, and `Sound` states
 * the few facts about them that the proofs rely on.
 */
module RealMath {

  datatype Analytic = Analytic(sqrt: real -> real, pi: real, pow0658: real -> real)

  /** The facts assumed of the square root, of pi and of 0.658^x. */
  ghost predicate Sound(m: Analytic) {
    && 3.14 < m.pi < 3.15
    && (forall x :: 0.0 <= x ==> 0.0 <= m.sqrt(x) && m.sqrt(x) * m.sqrt(x) == x)
    && (forall x :: 0.0 <= x ==> 0.0 < m.pow0658(x) <= 1.0)
    && m.pow0658(0.0) == 1.0
    && (forall x, y :: 0.0 <= x <= y ==> m.pow0658(y) <= m.pow0658(x))
  }

  function Min(a: real, b: real): (r: real)
    ensures r <= a && r <= b && (r == a || r == b)
  {
    if a <= b then a else b
  }

  function Max(a: real, b: real): (r: real)
    ensures a <= r && b <= r && (r == a || r == b)
  {
    if a >= b then a else b
  }

  function Abs(x: real): (r: real)
    ensures 0.0 <= r && (r == x || r == -x)
  {
    if x < 0.0 then -x else x
  }

  /** The product of two positive reals is positive. */
  lemma PositiveProduct(a: real, b: real)
    requires 0.0 < a && 0.0 < b
    ensures 0.0 < a * b
  {
  }

  lemma DifferenceOfSquares(x: real, y: real)
    ensures (x - y) * (x + y) == x * x - y * y
  {
  }

  lemma NonNegativeProduct(a: real, b: real)
    requires 0.0 <= a && 0.0 <= b
    ensures 0.0 <= a * b
  {
  }

  /** a·b as a function, so that facts about a product of a term with itself stay attached to it. */
  function Times(a: real, b: real): real {
    a * b
  }

  lemma TimesPositive(a: real, b: real)
    requires 0.0 < a && 0.0 < b
    ensures 0.0 < Times(a, b)
  {
  }

  /** x², with its sign facts. */
  function Sq(x: real): (r: real)
    ensures r >= 0.0
    ensures x != 0.0 ==> r > 0.0
  {
    if x > 0.0 then TimesPositive(x, x); Times(x, x)
    else if x < 0.0 then TimesPositive(-x, -x); Times(-x, -x)
    else 0.0
  }

  /** Squares of non-negative numbers keep their order. */
  lemma SqMonotone(x: real, y: real)
    requires 0.0 <= x <= y
    ensures Sq(x) <= Sq(y)
  {
    MulMonotone(x, y, x);
    MulMonotone(x, y, y);
  }

  lemma SqIsSquare(x: real)
    ensures Sq(x) == x * x
  {
  }

  lemma SqOfAbs(x: real)
    ensures Sq(Abs(x)) == Sq(x)
  {
  }

  /** Squares of non-negative numbers keep their strict order. */
  lemma SqStrict(x: real, y: real)
    requires 0.0 <= x < y
    ensures Sq(x) < Sq(y)
  {
    MulMonotone(x, y, x);
    MulStrict(x, y, y);
    assert x * x <= y * x;
    assert x * y < y * y;
    assert y * x == x * y;
    SqIsSquare(x);
    SqIsSquare(y);
  }

  /** Multiplying by a positive c keeps the strict order. */
  lemma MulStrict(a: real, b: real, c: real)
    requires a < b && c > 0.0
    ensures a * c < b * c
  {
    PositiveProduct(b - a, c);
  }

  /** For non-negative x and y, Sq(x) ≤ Sq(y) implies x ≤ y. */
  lemma SqMonotoneInverse(x: real, y: real)
    requires 0.0 <= x && 0.0 <= y && Sq(x) <= Sq(y)
    ensures x <= y
  {
    if y < x {
      SqStrict(y, x);
    }
  }

  lemma SqOfProduct(a: real, b: real)
    ensures Sq(a * b) == Sq(a) * Sq(b)
  {
    SqIsSquare(a);
    SqIsSquare(b);
    SqIsSquare(a * b);
  }

  lemma SqOfDifference(a: real, b: real)
    ensures Sq(a - b) == Sq(a) - 2.0 * (a * b) + Sq(b)
  {
    SqIsSquare(a);
    SqIsSquare(b);
    SqIsSquare(a - b);
  }

  /** On [0, 1] a square does not exceed its base. */
  lemma SqAtMostBase(x: real)
    requires 0.0 <= x <= 1.0
    ensures Sq(x) <= x
  {
    if x > 0.0 {
      TimesMonotone(x, 1.0, x);
    }
  }

  lemma TimesMonotone(a: real, b: real, c: real)
    requires a <= b && c >= 0.0
    ensures Times(a, c) <= Times(b, c)
  {
    MulMonotone(a, b, c);
  }

  /** Multiplying by a non-negative c keeps the order. */
  lemma MulMonotone(a: real, b: real, c: real)
    requires a <= b && c >= 0.0
    ensures a * c <= b * c
  {
    NonNegativeProduct(b - a, c);
  }

  /** Dividing by a positive b: a / b < c exactly when a < c * b. */
  lemma DivLess(a: real, b: real, c: real)
    requires 0.0 < b
    ensures a / b < c <==> a < c * b
  {
    var q := a / b;
    assert q * b == a;
    assert (c - q) * b == c * b - q * b;
    if q < c {
      PositiveProduct(c - q, b);
    } else {
      NonNegativeProduct(q - c, b);
    }
  }

  /** Dividing by a positive b: a / b <= c exactly when a <= c * b. */
  lemma DivAtMost(a: real, b: real, c: real)
    requires 0.0 < b
    ensures a / b <= c <==> a <= c * b
  {
    var q := a / b;
    assert q * b == a;
    assert (c - q) * b == c * b - q * b;
    if q <= c {
      NonNegativeProduct(c - q, b);
    } else {
      PositiveProduct(q - c, b);
    }
  }

  lemma DivNonNegative(a: real, b: real)
    requires 0.0 <= a && 0.0 < b
    ensures 0.0 <= a / b
  {
    DivLess(a, b, 0.0);
  }

  lemma DivPositive(a: real, b: real)
    requires 0.0 < a && 0.0 < b
    ensures 0.0 < a / b
  {
    DivAtMost(a, b, 0.0);
  }

  /** For non-negative x and y, x*x <= y*y implies x <= y. */
  lemma SquareMonotone(x: real, y: real)
    requires 0.0 <= x && 0.0 <= y
    requires x * x <= y * y
    ensures x <= y
  {
    if x > y {
      PositiveProduct(x - y, x + y);
      DifferenceOfSquares(x, y);
    }
  }

  /** The square root of a sound `Analytic` is monotone. */
  lemma SqrtMonotone(m: Analytic, x: real, y: real)
    requires Sound(m)
    requires 0.0 <= x <= y
    ensures m.sqrt(x) <= m.sqrt(y)
  {
    var a, b := m.sqrt(x), m.sqrt(y);
    assert a * a == x && b * b == y;
    SquareMonotone(a, b);
  }

  /** The square root of a positive number is positive. */
  lemma SqrtPositive(m: Analytic, x: real)
    requires Sound(m)
    requires 0.0 < x
    ensures 0.0 < m.sqrt(x)
  {
    var a := m.sqrt(x);
    assert 0.0 <= a && a * a == x;
  }

  /** The square root of 1 is 1. */
  lemma SqrtOne(m: Analytic)
    requires Sound(m)
    ensures m.sqrt(1.0) == 1.0
  {
    var a := m.sqrt(1.0);
    assert a * a == 1.0;
    SquareMonotone(a, 1.0);
    SquareMonotone(1.0, a);
  }

  /** Below 1 the square root stays below 1. */
  lemma SqrtBelowOne(m: Analytic, x: real)
    requires Sound(m)
    requires 0.0 <= x < 1.0
    ensures 0.0 <= m.sqrt(x) < 1.0
  {
    var a := m.sqrt(x);
    assert a * a == x;
  }

  /** For c ≥ 0, dividing by a larger positive number gives a smaller quotient. */
  lemma DivAntitone(c: real, a: real, b: real)
    requires c >= 0.0 && 0.0 < a <= b
    ensures c / b <= c / a
  {
    var x, y := c / a, c / b;
    assert x * a == c && y * b == c;
    DivNonNegative(c, a);
    MulMonotone(a, b, x);
    DivAtMost(c, b, x);
  }

  /** For b > 0 and a <= b - n: a / b <= 1 - n / b. */
  lemma DivSubtract(b: real, n: real, a: real)
    requires b > 0.0 && a <= b - n
    ensures a / b <= 1.0 - n / b
  {
    var x, y := a / b, n / b;
    assert x * b == a && y * b == n;
    assert (1.0 - y) * b == b - n;
    DivAtMost(a, b, 1.0 - y);
  }

  /** The square root of a²/b² is |a|/b, written without the division. */
  lemma SqrtOfQuotient(m: Analytic, a: real, b: real)
    requires Sound(m) && b > 0.0
    ensures m.sqrt(Sq(a) / Sq(b)) * b == Abs(a)
  {
    var d := Sq(a) / Sq(b);
    DivNonNegative(Sq(a), Sq(b));
    var r := m.sqrt(d);
    assert 0.0 <= r && r * r == d;
    var u := r * b;
    NonNegativeProduct(r, b);
    SqOfProduct(r, b);
    SqIsSquare(r);
    assert d * Sq(b) == Sq(a);
    assert Sq(u) == Sq(Abs(a)) by { SqOfAbs(a); }
    SqMonotoneInverse(u, Abs(a));
    SqMonotoneInverse(Abs(a), u);
  }

  /** Scaling an upper bound on r by a positive s. */
  lemma ScaleBound(r: real, q: real, s: real, a: real)
    requires r <= q && s > 0.0 && r * s == a
    ensures a <= s * q
  {
    MulMonotone(r, q, s);
  }

  /** Cancelling a positive factor keeps the order. */
  lemma MulCancel(a: real, b: real, c: real)
    requires c > 0.0 && a * c <= b * c
    ensures a <= b
  {
    if a > b {
      MulStrict(b, a, c);
    }
  }

  /** Dividing by a positive d keeps the order. */
  lemma DivMonotone(a: real, b: real, d: real)
    requires a <= b && d > 0.0
    ensures a / d <= b / d
  {
    DivAtMost(a, d, b / d);
    assert b / d * d == b;
  }

  /** For positive t1, t2: b·t1 ≤ a·t2 gives b/t2 ≤ a/t1. */
  lemma CrossDivide(b: real, t2: real, a: real, t1: real)
    requires t1 > 0.0 && t2 > 0.0 && b * t1 <= a * t2
    ensures b / t2 <= a / t1
  {
    var x, y := b / t2, a / t1;
    assert x * t2 == b && y * t1 == a;
    PositiveProduct(t1, t2);
    assert x * (t1 * t2) == b * t1;
    assert y * (t1 * t2) == a * t2;
    MulCancel(x, y, t1 * t2);
  }

  lemma DivTimesSwap(c: real, t: real, q: real)
    requires t != 0.0
    ensures c / t * q == c * (q / t)
  {
  }

  lemma QuotientTimes(a: real, b: real, c: real)
    requires b != 0.0
    ensures a / b * c == a * c / b
  {
  }

  /** (1 − √x)(1 + √x) = 1 − x. */
  lemma RootSquared(m: Analytic, x: real)
    requires Sound(m) && 0.0 <= x
    ensures 1.0 - x == (1.0 - m.sqrt(x)) * (1.0 + m.sqrt(x))
  {
    var q := m.sqrt(x);
    assert q * q == x;
  }

  lemma QuotientOfSquare(n: real, s: real)
    requires s != 0.0
    ensures n / Sq(s) * (s * s) == n
  {
    SqIsSquare(s);
  }
}
