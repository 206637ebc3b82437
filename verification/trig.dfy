/**
 The transcendental functions the simulator takes from JavaScript's Math object and
 from three.js (square root, cosine, sine, arc sine, atan2 and Vector3.angleTo).
 They are kept uninterpreted: an `Oracle` carries them as values, and `Valid` lists the
 only facts the model relies on. Everything else in the model is exact real arithmetic.
 */
module Trig {
  import opened Geometry

  datatype Oracle = Oracle(
    pi: real,
    sqrt: real -> real,
    cos: real -> real,
    sin: real -> real,
    asin: real -> real,
    atan2: (real, real) -> real,
    angleTo: (Vec3, Vec3) -> real)

  /** The facts assumed of the uninterpreted functions. */
  ghost predicate Valid(o: Oracle) {
    && o.pi > 0.0
    && (forall x: real :: 0.0 <= x ==> 0.0 <= o.sqrt(x) && Mul(o.sqrt(x), o.sqrt(x)) == x)
    && o.cos(o.pi) == -1.0 && o.sin(o.pi) == 0.0
    && o.cos(3.0 * o.pi) == -1.0 && o.sin(3.0 * o.pi) == 0.0
    && o.asin(0.0) == 0.0
    && (forall c: real :: 0.0 < c ==> o.atan2(0.0, c) == 0.0)
    // three.js angleTo of a non-zero vector with itself is acos(1) = 0
    && (forall v: Vec3 :: NormSq(v) > 0.0 ==> o.angleTo(v, v) == 0.0)
  }

  /** Vector3.length. */
  function Length(o: Oracle, v: Vec3): real {
    o.sqrt(NormSq(v))
  }

  /** Vector3.normalize: divides by the length, or by 1 when the length is 0. */
  function Normalize(o: Oracle, v: Vec3): Vec3 {
    var l := Length(o, v);
    if l == 0.0 then v else Scale(1.0 / l, v)
  }

  /** MathUtils.degToRad. */
  function DegToRad(o: Oracle, deg: real): real {
    deg * (o.pi / 180.0)
  }

  /** MathUtils.radToDeg. */
  function RadToDeg(o: Oracle, rad: real): real
    requires Valid(o)
  {
    rad * (180.0 / o.pi)
  }

  /** The square root of c squared is c itself for non-negative c. */
  lemma SqrtOfSquare(o: Oracle, c: real)
    requires Valid(o)
    requires 0.0 <= c
    ensures o.sqrt(Mul(c, c)) == c
  {
    var s := o.sqrt(Mul(c, c));
    SquareSign(c);
    assert 0.0 <= s && Mul(s, s) == Mul(c, c);
    if s < c {
      SquareLess(s, c);
    } else if c < s {
      SquareLess(c, s);
    }
  }

  /** Comparing a square root with a non-negative bound is comparing squares. */
  lemma SqrtCompare(o: Oracle, x: real, c: real)
    requires Valid(o)
    requires 0.0 <= x && 0.0 <= c
    ensures o.sqrt(x) < c <==> x < Mul(c, c)
    ensures o.sqrt(x) > c <==> x > Mul(c, c)
  {
    var s := o.sqrt(x);
    assert 0.0 <= s && Mul(s, s) == x;
    if s < c {
      SquareLess(s, c);
    } else if c < s {
      SquareLess(c, s);
    }
  }

  /** The length is zero only for the zero vector. */
  lemma LengthPositive(o: Oracle, v: Vec3)
    requires Valid(o)
    requires NormSq(v) > 0.0
    ensures Length(o, v) > 0.0
  {
    var l := Length(o, v);
    assert Mul(l, l) == NormSq(v);
  }

  /** Normalizing a non-zero vector gives a unit vector. */
  lemma NormalizeUnit(o: Oracle, v: Vec3)
    requires Valid(o)
    requires NormSq(v) > 0.0
    ensures NormSq(Normalize(o, v)) == 1.0
  {
    var l := Length(o, v);
    LengthPositive(o, v);
    assert Mul(l, l) == NormSq(v);
    var k := 1.0 / l;
    assert Normalize(o, v) == Scale(k, v);
    NormSqScale(k, v);
    InverseSquare(l);
  }

  lemma InverseSquare(l: real)
    requires l > 0.0
    ensures Mul(1.0 / l, 1.0 / l) * Mul(l, l) == 1.0
  {
    var k := 1.0 / l;
    assert k * l == 1.0;
    assert Mul(k, k) * Mul(l, l) == (k * l) * (k * l);
  }

  /** Dividing by the positive length does not change the sign of a dot product. */
  lemma NormalizeDotSign(o: Oracle, v: Vec3, w: Vec3)
    requires Valid(o)
    requires NormSq(v) > 0.0
    ensures Dot(Normalize(o, v), w) > 0.0 <==> Dot(v, w) > 0.0
  {
    var l := Length(o, v);
    LengthPositive(o, v);
    DotScale(1.0 / l, v, w);
    assert 1.0 / l > 0.0;
  }

  /** Normalizing a positive multiple of a unit vector gives that unit vector back. */
  lemma NormalizeScaledUnit(o: Oracle, k: real, u: Vec3)
    requires Valid(o)
    requires k > 0.0 && NormSq(u) == 1.0
    ensures Normalize(o, Scale(k, u)) == u
  {
    NormSqScale(k, u);
    assert NormSq(Scale(k, u)) == Mul(k, k);
    SqrtOfSquare(o, k);
    assert Length(o, Scale(k, u)) == k;
    assert (1.0 / k) * k == 1.0;
  }

  /** radToDeg undoes degToRad, and degToRad is linear with 0 degrees at 0 radians. */
  lemma DegRadRoundTrip(o: Oracle, deg: real, deg': real)
    requires Valid(o)
    ensures RadToDeg(o, DegToRad(o, deg)) == deg
    ensures DegToRad(o, deg + deg') == DegToRad(o, deg) + DegToRad(o, deg')
    ensures DegToRad(o, 0.0) == 0.0
  {
    assert (o.pi / 180.0) * (180.0 / o.pi) == 1.0;
  }
}
