/** Three-component vectors over the reals, standing in for mathutils.Vector.
    Lengths go through a square-root routine that the model receives as a
    parameter: only its nonnegativity is built into its type, and lemmas that
    need it to be exact say so with IsSqrt. */
module Vectors {

  datatype Vec3 = Vec3(x: real, y: real, z: real)

  const Zero: Vec3 := Vec3(0.0, 0.0, 0.0)

  function Add(a: Vec3, b: Vec3): Vec3 { Vec3(a.x + b.x, a.y + b.y, a.z + b.z) }

  function Sub(a: Vec3, b: Vec3): Vec3 { Vec3(a.x - b.x, a.y - b.y, a.z - b.z) }

  function Neg(a: Vec3): Vec3 { Vec3(-a.x, -a.y, -a.z) }

  function Scale(a: Vec3, k: real): Vec3 { Vec3(a.x * k, a.y * k, a.z * k) }

  function Dot(a: Vec3, b: Vec3): real { a.x * b.x + a.y * b.y + a.z * b.z }

  function Cross(a: Vec3, b: Vec3): Vec3 {
    Vec3(a.y * b.z - a.z * b.y, a.z * b.x - a.x * b.z, a.x * b.y - a.y * b.x)
  }

  function LengthSquared(a: Vec3): real { Dot(a, a) }

  /** Squared distance, the quantity the nearest-neighbour queries compare. */
  function SqDist(a: Vec3, b: Vec3): real { LengthSquared(Sub(a, b)) }

  /** A square-root routine: it never returns a negative number. */
  type Root = f: real -> real | forall x :: 0.0 <= f(x) witness (x: real) => 0.0

  /** The routine applied to x; a name for the term that makes the fact in
      IsSqrt available, so that it is used only where a proof asks for it. */
  function RootOf(sqrt: Root, x: real): real { sqrt(x) }

  /** The routine is the exact square root on nonnegative arguments. */
  ghost predicate IsSqrt(sqrt: Root) {
    forall x {:trigger RootOf(sqrt, x)} :: 0.0 <= x ==> sqrt(x) * sqrt(x) == x
  }

  /** Vector.length */
  function Length(sqrt: Root, a: Vec3): (r: real)
    ensures 0.0 <= r
  {
    sqrt(LengthSquared(a))
  }

  /** Vector.normalized(): a zero vector stays zero. */
  function Normalized(sqrt: Root, a: Vec3): Vec3 {
    var l := Length(sqrt, a);
    if l == 0.0 then Zero else Scale(a, 1.0 / l)
  }

  /** The setter `v.length = m` for m >= 0: a zero target zeroes the vector,
      a zero vector is left as it is, anything else is rescaled to length m.
      (A negative m raises; callers handle that case themselves.) */
  function WithLength(sqrt: Root, a: Vec3, m: real): Vec3
    requires 0.0 <= m
  {
    if m == 0.0 then Zero
    else
      var l := Length(sqrt, a);
      if l == 0.0 then a else Scale(a, m / l)
  }

  // ---------------------------------------------------------------------
  // Facts about the operations
  // ---------------------------------------------------------------------

  lemma MulNonNegative(a: real, b: real)
    requires 0.0 <= a && 0.0 <= b
    ensures 0.0 <= a * b
  {
  }

  lemma MulMonotone(a: real, b: real, c: real)
    requires a <= b && 0.0 <= c
    ensures c * a <= c * b
  {
    MulNonNegative(c, b - a);
  }

  lemma SquareNonNegative(a: real)
    ensures 0.0 <= a * a
  {
    if a < 0.0 {
      MulNonNegative(-a, -a);
      assert (-a) * (-a) == a * a;
    } else {
      MulNonNegative(a, a);
    }
  }

  lemma LengthSquaredNonNegative(a: Vec3)
    ensures 0.0 <= LengthSquared(a)
  {
    SquareNonNegative(a.x);
    SquareNonNegative(a.y);
    SquareNonNegative(a.z);
  }

  /** Scaling multiplies the squared length by the square of the factor. */
  lemma ScaleLengthSquared(a: Vec3, k: real)
    ensures LengthSquared(Scale(a, k)) == k * k * LengthSquared(a)
  {
    assert (a.x * k) * (a.x * k) == k * k * (a.x * a.x);
    assert (a.y * k) * (a.y * k) == k * k * (a.y * a.y);
    assert (a.z * k) * (a.z * k) == k * k * (a.z * a.z);
  }

  /** a is zero whenever a * b is zero and b is not. */
  lemma ZeroFactor(a: real, b: real)
    requires a * b == 0.0 && b != 0.0
    ensures a == 0.0
  {
    assert a == (a * b) / b;
  }

  /** a is nonnegative whenever a * b is and b is positive. */
  lemma NonNegativeFactor(a: real, b: real)
    requires 0.0 <= a * b && 0.0 < b
    ensures 0.0 <= a
  {
    assert a == (a * b) / b;
  }

  /** Among nonnegative numbers, squaring preserves and reflects order. */
  lemma SquaresOrdered(s: real, t: real)
    requires 0.0 <= s && 0.0 <= t
    ensures s <= t <==> s * s <= t * t
  {
    if s <= t {
      MulNonNegative(s, t - s);
      MulNonNegative(t, t - s);
    }
    if s * s <= t * t && 0.0 < t + s {
      assert (t - s) * (t + s) == t * t - s * s;
      NonNegativeFactor(t - s, t + s);
    }
  }

  lemma SqrtOfSquare(sqrt: Root, m: real)
    requires IsSqrt(sqrt)
    requires 0.0 <= m
    ensures sqrt(m * m) == m
  {
    var r := RootOf(sqrt, m * m);
    SquareNonNegative(m);
    assert r * r == m * m;
    SquaresOrdered(r, m);
    SquaresOrdered(m, r);
  }

  lemma SqrtMonotone(sqrt: Root, x: real, y: real)
    requires IsSqrt(sqrt)
    requires 0.0 <= x <= y
    ensures sqrt(x) <= sqrt(y)
  {
    assert RootOf(sqrt, x) * RootOf(sqrt, x) == x && RootOf(sqrt, y) * RootOf(sqrt, y) == y;
    SquaresOrdered(sqrt(x), sqrt(y));
  }

  /** With an exact square root, Length squares back to LengthSquared. */
  lemma LengthSquares(sqrt: Root, a: Vec3)
    requires IsSqrt(sqrt)
    ensures Length(sqrt, a) * Length(sqrt, a) == LengthSquared(a)
  {
    LengthSquaredNonNegative(a);
    var s := LengthSquared(a);
    assert RootOf(sqrt, s) * RootOf(sqrt, s) == s;
  }

  /** For nonnegative m, a length is at most m exactly when its square is at most m * m. */
  lemma LengthBound(sqrt: Root, a: Vec3, m: real)
    requires IsSqrt(sqrt)
    requires 0.0 <= m
    ensures Length(sqrt, a) <= m <==> LengthSquared(a) <= m * m
  {
    LengthSquares(sqrt, a);
    SquaresOrdered(Length(sqrt, a), m);
  }

  /** A vector of positive squared length has a positive length. */
  lemma LengthPositive(sqrt: Root, a: Vec3)
    requires IsSqrt(sqrt)
    requires 0.0 < LengthSquared(a)
    ensures 0.0 < Length(sqrt, a)
  {
    LengthSquares(sqrt, a);
    var l := Length(sqrt, a);
    if l == 0.0 {
      assert false;
    }
  }

  /** The length setter produces exactly the requested length, unless the
      vector had length zero, in which case it is left with length zero. */
  lemma WithLengthLength(sqrt: Root, a: Vec3, m: real)
    requires IsSqrt(sqrt)
    requires 0.0 <= m
    ensures Length(sqrt, a) != 0.0 ==> LengthSquared(WithLength(sqrt, a, m)) == m * m
    ensures Length(sqrt, a) != 0.0 ==> Length(sqrt, WithLength(sqrt, a, m)) == m
    ensures Length(sqrt, a) == 0.0 ==> LengthSquared(WithLength(sqrt, a, m)) == 0.0
  {
    LengthSquares(sqrt, a);
    var r := WithLength(sqrt, a, m);
    var l := Length(sqrt, a);
    if l != 0.0 && m != 0.0 {
      var k := m / l;
      ScaleLengthSquared(a, k);
      assert k * l == m;
      assert LengthSquared(r) == k * k * (l * l);
      assert k * k * (l * l) == (k * l) * (k * l);
    }
    if l != 0.0 {
      assert LengthSquared(r) == m * m;
      SqrtOfSquare(sqrt, m);
    }
    if l == 0.0 {
      assert l * l == 0.0 * 0.0;
    }
  }

  /** Half the sum of the squared lengths bounds the dot product from below. */
  lemma DotLowerBound(a: Vec3, b: Vec3)
    ensures -(LengthSquared(a) + LengthSquared(b)) <= 2.0 * Dot(a, b)
  {
    LengthSquaredNonNegative(Add(a, b));
    assert LengthSquared(Add(a, b)) == LengthSquared(a) + 2.0 * Dot(a, b) + LengthSquared(b);
  }

  /** Expanding the squared length of a sum. */
  lemma AddLengthSquared(a: Vec3, b: Vec3)
    ensures LengthSquared(Add(a, b)) == LengthSquared(a) + 2.0 * Dot(a, b) + LengthSquared(b)
  {
  }

  /** Expanding the squared length of a difference. */
  lemma SubLengthSquared(a: Vec3, b: Vec3)
    ensures LengthSquared(Sub(a, b)) == LengthSquared(a) - 2.0 * Dot(a, b) + LengthSquared(b)
  {
  }

  /** The dot product is bilinear in its two scale factors. */
  lemma DotScaleBoth(a: Vec3, t: real, b: Vec3, s: real)
    ensures Dot(Scale(a, t), Scale(b, s)) == t * s * Dot(a, b)
  {
    assert (a.x * t) * (b.x * s) == t * s * (a.x * b.x);
    assert (a.y * t) * (b.y * s) == t * s * (a.y * b.y);
    assert (a.z * t) * (b.z * s) == t * s * (a.z * b.z);
  }

  /** The scalar identity behind BlendIdentity. With u = t a + s b: r, ra, rb
      are the squared lengths of u, t a and s b, and g the dot product of t a
      and s b; p, q are the squared lengths of a and b, c their dot product and
      e the squared length of their difference. */
  lemma BlendScalars(t: real, s: real, p: real, q: real, c: real, e: real,
                     r: real, ra: real, rb: real, g: real)
    requires s == 1.0 - t && e == p - 2.0 * c + q
    requires r == ra + 2.0 * g + rb && ra == t * t * p && rb == s * s * q && g == t * s * c
    ensures r == t * p + s * q - t * s * e
  {
  }

  /** The squared length of a blend of a and b, with weights t and s = 1 - t,
      in terms of theirs and of their difference. */
  lemma BlendIdentity(a: Vec3, b: Vec3, t: real, s: real)
    requires s == 1.0 - t
    ensures LengthSquared(Add(Scale(a, t), Scale(b, s)))
            == t * LengthSquared(a) + s * LengthSquared(b) - t * s * LengthSquared(Sub(a, b))
  {
    AddLengthSquared(Scale(a, t), Scale(b, s));
    ScaleLengthSquared(a, t);
    ScaleLengthSquared(b, s);
    DotScaleBoth(a, t, b, s);
    SubLengthSquared(a, b);
    BlendScalars(t, s, LengthSquared(a), LengthSquared(b), Dot(a, b), LengthSquared(Sub(a, b)),
                 LengthSquared(Add(Scale(a, t), Scale(b, s))), LengthSquared(Scale(a, t)),
                 LengthSquared(Scale(b, s)), Dot(Scale(a, t), Scale(b, s)));
  }

  /** The squared length is convex: a blend of two vectors is no longer
      than the longer of them. */
  lemma BlendLengthSquared(a: Vec3, b: Vec3, t: real)
    requires 0.0 <= t <= 1.0
    ensures LengthSquared(Add(Scale(a, t), Scale(b, 1.0 - t)))
            <= t * LengthSquared(a) + (1.0 - t) * LengthSquared(b)
  {
    BlendIdentity(a, b, t, 1.0 - t);
    LengthSquaredNonNegative(Sub(a, b));
    MulNonNegative(t, 1.0 - t);
    MulNonNegative(t * (1.0 - t), LengthSquared(Sub(a, b)));
  }

  lemma AddAssociative(a: Vec3, b: Vec3, c: Vec3)
    ensures Add(Add(a, b), c) == Add(a, Add(b, c))
  {
  }

  lemma AddCommutative(a: Vec3, b: Vec3)
    ensures Add(a, b) == Add(b, a)
  {
  }

  lemma AddZero(a: Vec3)
    ensures Add(a, Zero) == a && Add(Zero, a) == a
  {
  }

  /** Setting the length of a vector perpendicular to n keeps it perpendicular. */
  lemma WithLengthPerpendicular(sqrt: Root, w: Vec3, m: real, n: Vec3)
    requires 0.0 <= m
    requires Dot(w, n) == 0.0
    ensures Dot(WithLength(sqrt, w, m), n) == 0.0
  {
    if m != 0.0 && Length(sqrt, w) != 0.0 {
      DotScale(w, m / Length(sqrt, w), n);
    }
  }

  /** Giving w the length of v never makes it longer than v, and makes it
      exactly as long unless w has length zero. */
  lemma WithLengthOf(sqrt: Root, w: Vec3, v: Vec3)
    requires IsSqrt(sqrt)
    ensures LengthSquared(WithLength(sqrt, w, Length(sqrt, v))) <= LengthSquared(v)
    ensures Length(sqrt, w) != 0.0 ==> LengthSquared(WithLength(sqrt, w, Length(sqrt, v))) == LengthSquared(v)
    ensures Length(sqrt, w) != 0.0 ==> Length(sqrt, WithLength(sqrt, w, Length(sqrt, v))) == Length(sqrt, v)
  {
    WithLengthLength(sqrt, w, Length(sqrt, v));
    LengthSquares(sqrt, v);
    LengthSquaredNonNegative(v);
  }

  /** A blend with weights in [0, 1] of two squared lengths within a bound
      stays within it. */
  lemma ConvexBound(p: real, q: real, bound: real, t: real)
    requires p <= bound && q <= bound
    requires 0.0 <= t <= 1.0
    ensures t * p + (1.0 - t) * q <= bound
  {
    MulNonNegative(t, bound - p);
    MulNonNegative(1.0 - t, bound - q);
    assert t * (bound - p) + (1.0 - t) * (bound - q) == bound - (t * p + (1.0 - t) * q);
  }

  /** A number in [0, 1] squares to at most 1. */
  lemma SquareAtMostOne(m: real)
    requires 0.0 <= m <= 1.0
    ensures m * m <= 1.0
  {
    MulMonotone(m, 1.0, m);
    assert m * m <= m;
  }

  /** n x u is perpendicular to n. */
  lemma CrossPerpendicular(n: Vec3, u: Vec3)
    ensures Dot(Cross(n, u), n) == 0.0
  {
  }

  lemma DotScale(a: Vec3, k: real, n: Vec3)
    ensures Dot(Scale(a, k), n) == k * Dot(a, n)
  {
  }
}
