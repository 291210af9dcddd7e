/** Three-dimensional vectors over the reals (Eigen::Vector3f with exact arithmetic). */
module Vectors {

  datatype Vec3 = Vec3(x: real, y: real, z: real)

  function Sub(a: Vec3, b: Vec3): Vec3 {
    Vec3(a.x - b.x, a.y - b.y, a.z - b.z)
  }

  function Scale(v: Vec3, s: real): Vec3 {
    Vec3(s * v.x, s * v.y, s * v.z)
  }

  function Dot(a: Vec3, b: Vec3): real {
    a.x * b.x + a.y * b.y + a.z * b.z
  }

  /** a.cross(b) */
  function Cross(a: Vec3, b: Vec3): Vec3 {
    Vec3(a.y * b.z - a.z * b.y, a.z * b.x - a.x * b.z, a.x * b.y - a.y * b.x)
  }

  function SqNorm(v: Vec3): real {
    Dot(v, v)
  }

  function Square(r: real): real {
    r * r
  }

  /** `n` is the Euclidean norm of `v`: v.norm() is a square root, supplied by the caller. */
  predicate IsNorm(n: real, v: Vec3) {
    n >= 0.0 && Square(n) == SqNorm(v)
  }

  lemma ProductPositive(a: real, b: real)
    requires a > 0.0 && b > 0.0
    ensures a * b > 0.0
  {
  }

  lemma SquareStrictlyMonotone(a: real, b: real)
    requires 0.0 <= b < a
    ensures Square(b) < Square(a)
  {
    ProductPositive(a - b, a + b);
    assert (a - b) * (a + b) == a * a - b * b;
  }

  /** For non-negative roots, comparing roots is comparing their squares, and a root is
      zero exactly when its square is. */
  lemma RootOrder(ra: real, rb: real)
    requires ra >= 0.0 && rb >= 0.0
    ensures ra > rb <==> Square(ra) > Square(rb)
    ensures ra == 0.0 <==> Square(ra) == 0.0
  {
    if ra > rb {
      SquareStrictlyMonotone(ra, rb);
    } else if ra < rb {
      SquareStrictlyMonotone(rb, ra);
    }
    if ra > 0.0 {
      SquareStrictlyMonotone(ra, 0.0);
    }
  }

  /** Comparing norms is comparing squared norms. */
  lemma NormOrderIsSqNormOrder(na: real, a: Vec3, nb: real, b: Vec3)
    requires IsNorm(na, a) && IsNorm(nb, b)
    ensures na > nb <==> SqNorm(a) > SqNorm(b)
    ensures na == 0.0 <==> SqNorm(a) == 0.0
  {
    RootOrder(na, nb);
  }

  /** Dividing a vector by its non-zero norm gives a unit vector. */
  lemma NormalizedIsUnit(n: real, v: Vec3)
    requires IsNorm(n, v) && n != 0.0
    ensures SqNorm(Scale(v, 1.0 / n)) == 1.0
  {
    var s := 1.0 / n;
    assert SqNorm(Scale(v, s)) == (s * s) * SqNorm(v);
    assert (s * s) * Square(n) == (s * n) * (s * n);
    assert s * n == 1.0;
  }

  /** The cross product is orthogonal to both of its factors. */
  lemma CrossOrthogonal(a: Vec3, b: Vec3)
    ensures Dot(Cross(a, b), a) == 0.0 && Dot(Cross(a, b), b) == 0.0
  {
  }

  /** Lagrange's identity: |a x b|^2 = |a|^2 |b|^2 - (a . b)^2. */
  lemma LagrangeIdentity(a: Vec3, b: Vec3)
    ensures SqNorm(Cross(a, b)) == SqNorm(a) * SqNorm(b) - Dot(a, b) * Dot(a, b)
  {
  }

  lemma DotScale(a: Vec3, s: real, b: Vec3, t: real)
    ensures Dot(Scale(a, s), Scale(b, t)) == (s * t) * Dot(a, b)
  {
  }
}
