/** The two numpy routines the angle code depends on, as a parameter, and the
    facts about real numbers the geometry needs.

    `np.linalg.norm` reduces to a square root and `np.degrees(np.arccos(x))`
    to one function of the cosine.  Neither can be written out here in exact
    arithmetic, so every operation that needs them takes a `MathLib` and every
    lemma that relies on what they compute assumes `Sound(m)`: the laws the
    real square root and the arc cosine in degrees obey. */
module Numerics {

  /** A float64 as numpy returns it, idealised: finite values are exact reals;
      NaN is the value numpy yields for 0/0 and propagates through clip,
      arccos and degrees. */
  datatype Float = Finite(value: real) | NaN

  /** `sqrt` stands for the square root inside `np.linalg.norm`,
      `arccosDegrees` for `np.degrees(np.arccos(x))`. */
  datatype MathLib = MathLib(sqrt: real -> real, arccosDegrees: real -> real)

  /** The laws of the real square root and of the arc cosine in degrees on
      [-1, 1]: the root is non-negative and squares back to its argument; the
      arc cosine is strictly decreasing, with arccos(1) = 0, arccos(0) = 90
      and arccos(-1) = 180 degrees. */
  ghost predicate Sound(m: MathLib) {
    && (forall x: real :: 0.0 <= x ==> 0.0 <= m.sqrt(x) && m.sqrt(x) * m.sqrt(x) == x)
    && (forall x: real, y: real :: -1.0 <= x < y <= 1.0 ==> m.arccosDegrees(y) < m.arccosDegrees(x))
    && m.arccosDegrees(1.0) == 0.0
    && m.arccosDegrees(0.0) == 90.0
    && m.arccosDegrees(-1.0) == 180.0
  }

  // Facts about products, quotients and squares.  These lemmas take their
  // products and quotients as parameters of their own (`s == a * b`) instead
  // of stating them about terms of the geometry: the solver's nonlinear real
  // arithmetic proves each fact reliably on a handful of plain reals, and a
  // caller hands in whatever term it has for the product (a norm product, a
  // dot product, a cosine), so that no proof mixes those terms with the
  // square-root laws.

  /** The sign of a product from the signs of its factors. */
  lemma ProductSign(a: real, b: real, s: real)
    requires s == a * b
    ensures 0.0 < a && 0.0 < b ==> 0.0 < s
    ensures a < 0.0 && b < 0.0 ==> 0.0 < s
    ensures 0.0 < a && b < 0.0 ==> s < 0.0
    ensures a < 0.0 && 0.0 < b ==> s < 0.0
    ensures a == 0.0 || b == 0.0 ==> s == 0.0
    ensures a != 0.0 && b != 0.0 ==> s != 0.0
  {
  }

  /** A square is never negative and is zero only at zero. */
  lemma SquareSign(a: real, s: real)
    requires s == a * a
    ensures 0.0 <= s
    ensures s == 0.0 <==> a == 0.0
  {
    ProductSign(a, a, s);
  }

  /** A sum of two squares is never negative and is zero only when both
      bases are. */
  lemma SumOfSquaresSign(a: real, b: real, s: real)
    requires s == a * a + b * b
    ensures 0.0 <= s
    ensures s == 0.0 <==> a == 0.0 && b == 0.0
  {
    SquareSign(a, a * a);
    SquareSign(b, b * b);
  }

  /** The square of a known value. */
  lemma SquareOfKnown(a: real, k: real, s: real)
    requires a == k && s == a * a
    ensures s == k * k
  {
  }

  /** Two non-negative reals with the same square are equal. */
  lemma NonNegativeSquareUnique(s: real, r: real)
    requires 0.0 <= s && 0.0 <= r && s * s == r * r
    ensures s == r
  {
    ProductSign(r - s, r + s, r * r - s * s);
    ProductSign(s - r, s + r, s * s - r * r);
  }

  /** The root of a square is its non-negative base. */
  lemma SqrtOfSquare(m: MathLib, r: real)
    requires Sound(m)
    requires 0.0 <= r
    ensures m.sqrt(r * r) == r
  {
    NonNegativeSquareUnique(m.sqrt(r * r), r);
  }

  /** The root is zero exactly at zero. */
  lemma SqrtSign(m: MathLib, x: real)
    requires Sound(m)
    requires 0.0 <= x
    ensures 0.0 <= m.sqrt(x)
    ensures m.sqrt(x) == 0.0 <==> x == 0.0
  {
    SquareSign(m.sqrt(x), x);
  }

  /** Scaling a vector (a, b) of length n by k scales its squared length by
      k squared. */
  lemma ScaledLength(k: real, a: real, b: real, n: real, s: real)
    requires n * n == a * a + b * b
    requires s == (k * a) * (k * a) + (k * b) * (k * b)
    ensures s == (k * n) * (k * n)
  {
  }

  /** The absolute value. */
  function Abs(x: real): (r: real)
    ensures 0.0 <= r && (r == x || r == -x)
  {
    if x < 0.0 then -x else x
  }

  /** The root of the squared length of k (a, b), with n the length of
      (a, b), is |k| n. */
  lemma SqrtOfScaledLength(m: MathLib, k: real, a: real, b: real, n: real, s: real)
    requires Sound(m)
    requires 0.0 <= n && n * n == a * a + b * b
    requires s == (k * a) * (k * a) + (k * b) * (k * b)
    ensures m.sqrt(s) == Abs(k) * n
  {
    ScaledLength(k, a, b, n, s);
    SumOfSquaresSign(k * a, k * b, s);
    ProductSign(Abs(k), n, Abs(k) * n);
    NonNegativeSquareUnique(m.sqrt(s), Abs(k) * n);
  }

  /** For (a, b) of length n and nk = |k| n, the dot product of (a, b) with
      k (a, b) is the product n nk, with the sign of k. */
  lemma DotWithScaled(k: real, a: real, b: real, n: real, nk: real, d: real, p: real)
    requires n * n == a * a + b * b && nk == Abs(k) * n
    requires d == a * (k * a) + b * (k * b)
    requires p == n * nk
    ensures 0.0 < k ==> d == 1.0 * p
    ensures k < 0.0 ==> d == -1.0 * p
  {
  }

  /** |d| <= p once d squared is at most p squared and p is not negative. */
  lemma AbsBoundFromSquares(d: real, p: real)
    requires 0.0 <= p && d * d <= p * p
    ensures -p <= d <= p
  {
    ProductSign(d - p, d + p, d * d - p * p);
    ProductSign(p - d, -d - p, d * d - p * p);
  }

  /** The Cauchy-Schwarz inequality in the plane on plain coordinates: with
      p and q the lengths of (a, b) and (c, d), the dot product lies
      between -pq and pq. */
  lemma CauchySchwarzPlane(a: real, b: real, c: real, d: real, p: real, q: real)
    requires 0.0 <= p && 0.0 <= q
    requires p * p == a * a + b * b && q * q == c * c + d * d
    ensures -(p * q) <= a * c + b * d <= p * q
  {
    var e := a * d - b * c;
    // Lagrange's identity in the plane.
    assert (p * q) * (p * q) - (a * c + b * d) * (a * c + b * d) == e * e;
    SquareSign(e, e * e);
    ProductSign(p, q, p * q);
    AbsBoundFromSquares(a * c + b * d, p * q);
  }

  /** For (a, b) of length n and k != 0, the cosine between (a, b) and
      k (a, b) is the sign of k. */
  lemma CosineWithScaled(k: real, a: real, b: real, n: real, nk: real, d: real, p: real, c: real)
    requires n * n == a * a + b * b && nk == Abs(k) * n
    requires d == a * (k * a) + b * (k * b)
    requires p == n * nk && p != 0.0 && c == d / p
    ensures 0.0 < k ==> c == 1.0
    ensures k < 0.0 ==> c == -1.0
  {
    DotWithScaled(k, a, b, n, nk, d, p);
    if 0.0 < k {
      QuotientOfMultiple(d, p, 1.0, c);
    } else if k < 0.0 {
      QuotientOfMultiple(d, p, -1.0, c);
    }
  }

  /** A quotient d / p with |d| <= p lies in [-1, 1]. */
  lemma QuotientInUnitRange(d: real, p: real, c: real)
    requires 0.0 < p && -p <= d <= p && c == d / p
    ensures -1.0 <= c <= 1.0
  {
  }

  /** Quotients of equal numerators over equal denominators are equal. */
  lemma QuotientCongruence(d1: real, p1: real, c1: real, d2: real, p2: real, c2: real)
    requires p1 != 0.0 && d1 == d2 && p1 == p2
    requires c1 == d1 / p1 && c2 == d2 / p2
    ensures c1 == c2
  {
  }

  /** A quotient whose numerator is k times its non-zero denominator is k. */
  lemma QuotientOfMultiple(d: real, p: real, k: real, c: real)
    requires p != 0.0 && d == k * p && c == d / p
    ensures c == k
  {
  }

  /** The arc cosine of a value in [-1, 1] is an angle between 0 and 180
      degrees, and it reaches the ends only at cosine 1 and -1. */
  lemma ArccosRange(m: MathLib, x: real)
    requires Sound(m)
    requires -1.0 <= x <= 1.0
    ensures 0.0 <= m.arccosDegrees(x) <= 180.0
    ensures m.arccosDegrees(x) == 0.0 <==> x == 1.0
    ensures m.arccosDegrees(x) == 180.0 <==> x == -1.0
  {
    if -1.0 < x {
      assert m.arccosDegrees(x) < m.arccosDegrees(-1.0);
    }
    if x < 1.0 {
      assert m.arccosDegrees(1.0) < m.arccosDegrees(x);
    }
  }

  /** The cosine c = d / p between (ux, uy), of length n > 0, and the
      vertical vector (0, -h), of length h > 0, is 1 exactly when (ux, uy)
      points the same way (straight up) and -1 exactly when it points the
      opposite way. */
  lemma CosineAgainstVertical(ux: real, uy: real, n: real, h: real, d: real, p: real, c: real)
    requires 0.0 < n && n * n == ux * ux + uy * uy && 0.0 < h
    requires d == -(h * uy) && p == n * h && c == d / p
    ensures c == 1.0 <==> ux == 0.0 && uy < 0.0
    ensures c == -1.0 <==> ux == 0.0 && 0.0 < uy
  {
    ProductSign(n, h, p);
    if c == 1.0 || c == -1.0 {
      QuotientTimesDenominator(d, p, c);
      // h (n + c uy) == 0, so n == -c uy and ux squared is zero.
      ProductSign(h, n + c * uy, h * (n + c * uy));
      assert n == -(c * uy);
      SquareSign(ux, ux * ux);
    }
    if ux == 0.0 && uy != 0.0 {
      SquareSign(ux, ux * ux);
      if uy < 0.0 {
        NonNegativeSquareUnique(n, -uy);
        QuotientOfMultiple(d, p, 1.0, c);
      } else {
        NonNegativeSquareUnique(n, uy);
        QuotientOfMultiple(d, p, -1.0, c);
      }
    }
  }

  /** A quotient times its non-zero denominator is its numerator. */
  lemma QuotientTimesDenominator(d: real, p: real, c: real)
    requires p != 0.0 && c == d / p
    ensures c * p == d
  {
  }
}
