/** Plane vectors as numpy handles them in the angle code: subtraction, dot
    product, Euclidean norm, the cosine of the angle between two vectors and
    `np.clip`.  Arithmetic is exact real arithmetic. */
module Geometry {
  import opened Numerics

  /** A point, or a vector, in normalized image coordinates. */
  datatype Point = Point(x: real, y: real)

  const Origin: Point := Point(0.0, 0.0)

  function Add(p: Point, v: Point): Point {
    Point(p.x + v.x, p.y + v.y)
  }

  /** `np.subtract(p, q)` (or `p - q` on arrays): the vector from q to p.
      Adding it back to q gives p, and it is the zero vector exactly when
      the two points coincide. */
  function Sub(p: Point, q: Point): (v: Point)
    ensures Add(q, v) == p
    ensures v == Origin <==> p == q
  {
    Point(p.x - q.x, p.y - q.y)
  }

  function Scale(k: real, v: Point): Point {
    Point(k * v.x, k * v.y)
  }

  /** `np.dot` of two 2-vectors. */
  function Dot(u: Point, v: Point): real {
    u.x * v.x + u.y * v.y
  }

  /** The squared Euclidean length. */
  function NormSq(v: Point): real {
    v.x * v.x + v.y * v.y
  }

  /** `np.linalg.norm(v)`: the square root of the squared length. */
  function Norm(m: MathLib, v: Point): real {
    m.sqrt(NormSq(v))
  }

  /** The cosine of the angle between u and v as the angle code computes it:
      the dot product over the product of the norms. */
  function Cosine(m: MathLib, u: Point, v: Point): real
    requires Norm(m, u) * Norm(m, v) != 0.0
  {
    Dot(u, v) / (Norm(m, u) * Norm(m, v))
  }

  /** `np.clip(v, lo, hi)`: v itself when it lies in [lo, hi], otherwise the
      bound it overshoots. */
  function Clip(v: real, lo: real, hi: real): (r: real)
    requires lo <= hi
    ensures lo <= r <= hi
    ensures lo <= v <= hi ==> r == v
    ensures v < lo ==> r == lo
    ensures hi < v ==> r == hi
  {
    if v < lo then lo else if hi < v then hi else v
  }

  /** The dot product does not depend on the order of its arguments. */
  lemma DotSymmetric(u: Point, v: Point)
    ensures Dot(u, v) == Dot(v, u)
  {
  }

  /** The dot product with the zero vector is zero. */
  lemma DotWithOrigin(v: Point)
    ensures Dot(Origin, v) == 0.0 && Dot(v, Origin) == 0.0
  {
    ProductSign(Origin.x, v.x, Origin.x * v.x);
    ProductSign(Origin.y, v.y, Origin.y * v.y);
    ProductSign(v.x, Origin.x, v.x * Origin.x);
    ProductSign(v.y, Origin.y, v.y * Origin.y);
  }

  /** The cosine does not depend on the order of the two vectors. */
  lemma CosineSymmetric(m: MathLib, u: Point, v: Point)
    requires Norm(m, u) * Norm(m, v) != 0.0
    ensures Norm(m, v) * Norm(m, u) != 0.0
    ensures Cosine(m, u, v) == Cosine(m, v, u)
  {
    DotSymmetric(u, v);
    QuotientCongruence(Dot(u, v), Norm(m, u) * Norm(m, v), Cosine(m, u, v),
                       Dot(v, u), Norm(m, v) * Norm(m, u), Cosine(m, v, u));
  }

  /** Translating both points by the same vector leaves their difference
      unchanged. */
  lemma SubOfTranslated(p: Point, q: Point, t: Point)
    ensures Sub(Add(p, t), Add(q, t)) == Sub(p, q)
  {
  }

  /** The squared length is never negative and is zero exactly for the zero
      vector. */
  lemma NormSqSign(v: Point)
    ensures 0.0 <= NormSq(v)
    ensures NormSq(v) == 0.0 <==> v == Origin
  {
    SumOfSquaresSign(v.x, v.y, NormSq(v));
  }

  /** The norm is non-negative, squares to the squared length and is zero
      exactly for the zero vector. */
  lemma NormProperties(m: MathLib, v: Point)
    requires Sound(m)
    ensures 0.0 <= Norm(m, v)
    ensures Norm(m, v) * Norm(m, v) == NormSq(v)
    ensures Norm(m, v) == 0.0 <==> v == Origin
  {
    NormSqSign(v);
    SqrtSign(m, NormSq(v));
  }

  /** The product of two norms is zero exactly when one of the vectors is the
      zero vector, and positive otherwise. */
  lemma NormProductSign(m: MathLib, u: Point, v: Point)
    requires Sound(m)
    ensures Norm(m, u) * Norm(m, v) == 0.0 <==> u == Origin || v == Origin
    ensures u != Origin && v != Origin ==> 0.0 < Norm(m, u) * Norm(m, v)
  {
    NormProperties(m, u);
    NormProperties(m, v);
    ProductSign(Norm(m, u), Norm(m, v), Norm(m, u) * Norm(m, v));
  }

  /** The Cauchy-Schwarz inequality: the dot product is bounded in absolute
      value by the product of the norms. */
  lemma CauchySchwarz(m: MathLib, u: Point, v: Point)
    requires Sound(m)
    ensures -(Norm(m, u) * Norm(m, v)) <= Dot(u, v) <= Norm(m, u) * Norm(m, v)
  {
    NormProperties(m, u);
    NormProperties(m, v);
    CauchySchwarzPlane(u.x, u.y, v.x, v.y, Norm(m, u), Norm(m, v));
  }

  /** Over exact reals the cosine of two non-zero vectors lies in [-1, 1]. */
  lemma CosineInRange(m: MathLib, u: Point, v: Point)
    requires Sound(m)
    requires u != Origin && v != Origin
    ensures Norm(m, u) * Norm(m, v) != 0.0
    ensures -1.0 <= Cosine(m, u, v) <= 1.0
  {
    CosineDefined(m, u, v);
    CauchySchwarz(m, u, v);
    QuotientInUnitRange(Dot(u, v), Norm(m, u) * Norm(m, v), Cosine(m, u, v));
  }

  /** For two non-zero vectors the denominator of the cosine is not zero,
      so the cosine is the quotient itself. */
  lemma CosineDefined(m: MathLib, u: Point, v: Point)
    requires Sound(m)
    requires u != Origin && v != Origin
    ensures Norm(m, u) * Norm(m, v) != 0.0
    ensures Cosine(m, u, v) == Dot(u, v) / (Norm(m, u) * Norm(m, v))
  {
    NormProductSign(m, u, v);
  }

  /** Scaling a vector by k scales its norm by |k|. */
  lemma NormOfScale(m: MathLib, k: real, v: Point)
    requires Sound(m)
    ensures Norm(m, Scale(k, v)) == Abs(k) * Norm(m, v)
  {
    NormProperties(m, v);
    SqrtOfScaledLength(m, k, v.x, v.y, Norm(m, v), NormSq(Scale(k, v)));
  }


  /** A non-zero multiple of a non-zero vector is not the zero vector. */
  lemma ScaleNonZero(k: real, u: Point)
    requires u != Origin && k != 0.0
    ensures Scale(k, u) != Origin
  {
    ProductSign(k, u.x, k * u.x);
    ProductSign(k, u.y, k * u.y);
    ProductSign(-k, u.x, -k * u.x);
    ProductSign(-k, u.y, -k * u.y);
  }

  /** A non-zero vector makes a zero angle with every positive multiple of
      itself and a straight angle with every negative one: the cosine is 1
      or -1. */
  lemma CosineOfScaled(m: MathLib, u: Point, k: real)
    requires Sound(m)
    requires u != Origin && k != 0.0
    ensures Norm(m, u) * Norm(m, Scale(k, u)) != 0.0
    ensures 0.0 < k ==> Cosine(m, u, Scale(k, u)) == 1.0
    ensures k < 0.0 ==> Cosine(m, u, Scale(k, u)) == -1.0
  {
    var v := Scale(k, u);
    ScaleNonZero(k, u);
    NormProperties(m, u);
    NormOfScale(m, k, u);
    NormProductSign(m, u, v);
    CosineWithScaled(k, u.x, u.y, Norm(m, u), Norm(m, v), Dot(u, v), Norm(m, u) * Norm(m, v), Cosine(m, u, v));
  }

  /** Orthogonal non-zero vectors have cosine 0 (a right angle). */
  lemma CosineOfOrthogonal(m: MathLib, u: Point, v: Point)
    requires Sound(m)
    requires u != Origin && v != Origin && Dot(u, v) == 0.0
    ensures Norm(m, u) * Norm(m, v) != 0.0
    ensures Cosine(m, u, v) == 0.0
  {
    NormProductSign(m, u, v);
    QuotientOfMultiple(Dot(u, v), Norm(m, u) * Norm(m, v), 0.0, Cosine(m, u, v));
  }
}
