/** Three-component real vectors: world-space positions, directions and normals. */
module Geometry {

  datatype Vec3 = Vec3(x: real, y: real, z: real)

  function Add(a: Vec3, b: Vec3): Vec3 {
    Vec3(a.x + b.x, a.y + b.y, a.z + b.z)
  }

  function Sub(a: Vec3, b: Vec3): Vec3 {
    Vec3(a.x - b.x, a.y - b.y, a.z - b.z)
  }

  function Scale(k: real, v: Vec3): Vec3 {
    Vec3(k * v.x, k * v.y, k * v.z)
  }

  function Neg(v: Vec3): Vec3 {
    Vec3(-v.x, -v.y, -v.z)
  }

  /**
   A product kept behind a function name, so that facts about the sign of a
   coordinate product stay usable by the solver as plain linear facts.
   */
  function Mul(a: real, b: real): real {
    a * b
  }

  function Dot(a: Vec3, b: Vec3): real {
    Mul(a.x, b.x) + Mul(a.y, b.y) + Mul(a.z, b.z)
  }

  /** Squared Euclidean length. */
  function NormSq(v: Vec3): (r: real)
    ensures r >= 0.0
  {
    SquareSign(v.x);
    SquareSign(v.y);
    SquareSign(v.z);
    Dot(v, v)
  }

  function Abs(r: real): real {
    if r < 0.0 then -r else r
  }

  lemma MulPositive(a: real, b: real)
    requires a > 0.0 && b > 0.0
    ensures Mul(a, b) > 0.0
  {
  }

  /** A square is never negative, and is positive away from zero. */
  lemma SquareSign(r: real)
    ensures Mul(r, r) >= 0.0
    ensures r != 0.0 ==> Mul(r, r) > 0.0
  {
    if r > 0.0 {
      MulPositive(r, r);
    } else if r < 0.0 {
      MulPositive(-r, -r);
      assert Mul(r, r) == Mul(-r, -r);
    }
  }

  /** Squaring is strictly increasing on the non-negative reals. */
  lemma SquareLess(a: real, b: real)
    requires 0.0 <= a < b
    ensures Mul(a, a) < Mul(b, b)
  {
    MulPositive(b - a, b + a);
    assert Mul(b, b) - Mul(a, a) == Mul(b - a, b + a);
  }

  /** A vector with a non-zero component has a positive squared length. */
  lemma NormSqPositive(v: Vec3)
    requires v.x != 0.0 || v.y != 0.0 || v.z != 0.0
    ensures NormSq(v) > 0.0
  {
    SquareSign(v.x);
    SquareSign(v.y);
    SquareSign(v.z);
  }

  lemma DotScale(k: real, v: Vec3, w: Vec3)
    ensures Dot(Scale(k, v), w) == k * Dot(v, w)
  {
  }

  lemma NormSqScale(k: real, v: Vec3)
    ensures NormSq(Scale(k, v)) == Mul(k, k) * NormSq(v)
  {
  }

  /** The distance from a to b equals the distance from b to a. */
  lemma NormSqSubSymmetric(a: Vec3, b: Vec3)
    ensures NormSq(Sub(a, b)) == NormSq(Sub(b, a))
    ensures Sub(a, b) == Neg(Sub(b, a))
  {
  }
}
