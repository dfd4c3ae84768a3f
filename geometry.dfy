/** Vectors, axis-aligned boxes and the vector helpers of the simulator
    (`Box` and the `dist2`/`len2`/`limit` helpers). Coordinates are reals;
    the inverse square root behind `glm::normalize` is an abstract parameter. */
module Geometry {

  datatype Vec3 = Vec3(x: real, y: real, z: real)

  const Zero: Vec3 := Vec3(0.0, 0.0, 0.0)

  function Add(a: Vec3, b: Vec3): Vec3 { Vec3(a.x + b.x, a.y + b.y, a.z + b.z) }

  function Sub(a: Vec3, b: Vec3): Vec3 { Vec3(a.x - b.x, a.y - b.y, a.z - b.z) }

  function Scale(k: real, a: Vec3): Vec3 { Vec3(k * a.x, k * a.y, k * a.z) }

  function Dot(a: Vec3, b: Vec3): real { a.x * b.x + a.y * b.y + a.z * b.z }

  function Cross(a: Vec3, b: Vec3): Vec3 {
    Vec3(a.y * b.z - a.z * b.y, a.z * b.x - a.x * b.z, a.x * b.y - a.y * b.x)
  }

  /** `t * t`, kept as a named function so that the solver treats squares as atoms. */
  function Sq(t: real): real { t * t }

  lemma ProductNonNegativeSelf(t: real)
    ensures t * t >= 0.0
  {
  }

  lemma ZeroProduct(a: real, b: real)
    requires a * b == 0.0
    ensures a == 0.0 || b == 0.0
  {
  }

  lemma PositiveProduct(a: real, b: real)
    requires a > 0.0 && b > 0.0
    ensures a * b > 0.0
  {
  }

  lemma SqNonNegative(t: real)
    ensures Sq(t) >= 0.0
  {
    ProductNonNegativeSelf(t);
  }

  lemma SqPositive(t: real)
    requires t != 0.0
    ensures Sq(t) > 0.0
  {
    SqNonNegative(t);
    if Sq(t) == 0.0 {
      ZeroProduct(t, t);
    }
  }

  lemma NonNegativeProduct(a: real, b: real)
    requires a >= 0.0 && b >= 0.0
    ensures a * b >= 0.0
  {
  }

  /** Squaring is monotone on the non-negative reals. */
  lemma SqMonotone(a: real, b: real)
    requires 0.0 <= a <= b
    ensures Sq(a) <= Sq(b)
  {
    assert b * b - a * a == (b - a) * (b + a);
    NonNegativeProduct(b - a, b + a);
  }

  /** Squared length of a vector. */
  function Len2(a: Vec3): (r: real)
    ensures r >= 0.0
    ensures a == Zero ==> r == 0.0
  {
    SqNonNegative(a.x);
    SqNonNegative(a.y);
    SqNonNegative(a.z);
    Sq(a.x) + Sq(a.y) + Sq(a.z)
  }

  /** Only the zero vector has squared length zero. */
  lemma Len2Positive(a: Vec3)
    requires a != Zero
    ensures Len2(a) > 0.0
  {
    SqNonNegative(a.x);
    SqNonNegative(a.y);
    SqNonNegative(a.z);
    if a.x != 0.0 {
      SqPositive(a.x);
    } else if a.y != 0.0 {
      SqPositive(a.y);
    } else {
      SqPositive(a.z);
    }
  }

  /** Squared distance: the sum of the squared coordinate differences. */
  function Dist2(a: Vec3, b: Vec3): (r: real)
    ensures r == Len2(Sub(a, b))
    ensures r >= 0.0
    ensures a == b ==> r == 0.0
  {
    var x := a.x - b.x;
    var y := a.y - b.y;
    var z := a.z - b.z;
    Sq(x) + Sq(y) + Sq(z)
  }

  lemma Dist2Symmetric(a: Vec3, b: Vec3)
    ensures Dist2(a, b) == Dist2(b, a)
  {
    assert Sq(a.x - b.x) == Sq(b.x - a.x) by { SqNeg(a.x - b.x); }
    assert Sq(a.y - b.y) == Sq(b.y - a.y) by { SqNeg(a.y - b.y); }
    assert Sq(a.z - b.z) == Sq(b.z - a.z) by { SqNeg(a.z - b.z); }
  }

  lemma SqNeg(t: real)
    ensures Sq(-t) == Sq(t)
  {
    assert (-t) * (-t) == t * t;
  }

  lemma SqMul(k: real, t: real)
    ensures Sq(k * t) == Sq(k) * Sq(t)
  {
    assert (k * t) * (k * t) == (k * k) * (t * t);
  }

  lemma Len2Scale(k: real, v: Vec3)
    ensures Len2(Scale(k, v)) == Sq(k) * Len2(v)
  {
    SqMul(k, v.x);
    SqMul(k, v.y);
    SqMul(k, v.z);
    assert Sq(k) * (Sq(v.x) + Sq(v.y) + Sq(v.z)) == Sq(k) * Sq(v.x) + Sq(k) * Sq(v.y) + Sq(k) * Sq(v.z);
  }

  lemma DotSelf(v: Vec3)
    ensures Dot(v, v) == Len2(v)
  {
  }

  lemma DotScale(k: real, a: Vec3, b: Vec3)
    ensures Dot(Scale(k, a), b) == k * Dot(a, b)
  {
    assert (k * a.x) * b.x == k * (a.x * b.x);
    assert (k * a.y) * b.y == k * (a.y * b.y);
    assert (k * a.z) * b.z == k * (a.z * b.z);
  }

  lemma CrossScaleSelf(k: real, v: Vec3)
    ensures Cross(Scale(k, v), v) == Zero
  {
    assert (k * v.y) * v.z == (k * v.z) * v.y;
    assert (k * v.z) * v.x == (k * v.x) * v.z;
    assert (k * v.x) * v.y == (k * v.y) * v.x;
  }

  lemma ScaleScale(a: real, b: real, v: Vec3)
    ensures Scale(a, Scale(b, v)) == Scale(a * b, v)
  {
    assert a * (b * v.x) == (a * b) * v.x;
    assert a * (b * v.y) == (a * b) * v.y;
    assert a * (b * v.z) == (a * b) * v.z;
  }

  /** The law of the inverse square root that `glm::normalize` uses:
      for a positive argument it is positive and squares to its reciprocal. */
  ghost predicate InverseSqrt(rsqrt: real -> real) {
    forall s :: s > 0.0 ==> rsqrt(s) > 0.0 && Sq(rsqrt(s)) * s == 1.0
  }

  /** `glm::normalize(v)`, i.e. `v * inversesqrt(dot(v, v))`. */
  function Normalize(rsqrt: real -> real, v: Vec3): (r: Vec3)
    ensures InverseSqrt(rsqrt) && v != Zero ==> Len2(r) == 1.0
    ensures Cross(r, v) == Zero
  {
    var k := rsqrt(Len2(v));
    Len2Scale(k, v);
    CrossScaleSelf(k, v);
    assert v != Zero ==> Len2(v) > 0.0 by {
      if v != Zero { Len2Positive(v); }
    }
    Scale(k, v)
  }

  /** `limit(v, L)`: v itself when its squared length is at most L*L,
      otherwise `normalize(v) * L`. */
  function Limit(rsqrt: real -> real, v: Vec3, limit: real): (r: Vec3)
    ensures Len2(v) <= Sq(limit) ==> r == v
    ensures Len2(v) > Sq(limit) && InverseSqrt(rsqrt) ==> Len2(r) == Sq(limit)
    ensures InverseSqrt(rsqrt) ==> Len2(r) <= Sq(limit)
    ensures Cross(r, v) == Zero
    ensures Len2(v) > Sq(limit) && InverseSqrt(rsqrt) && limit > 0.0 ==> Dot(r, v) > 0.0
  {
    if Len2(v) > Sq(limit) then
      SqNonNegative(limit);
      ScaledNormalCross(rsqrt, v, limit);
      var r := Scale(limit, Normalize(rsqrt, v));
      assert InverseSqrt(rsqrt) ==> Len2(r) == Sq(limit) && (limit > 0.0 ==> Dot(r, v) > 0.0) by {
        if InverseSqrt(rsqrt) {
          ScaledNormalLength(rsqrt, v, limit);
          if limit > 0.0 {
            ScaledNormalDot(rsqrt, v, limit);
          }
        }
      }
      r
    else
      v
  }

  lemma ScaledNormalLength(rsqrt: real -> real, v: Vec3, limit: real)
    requires InverseSqrt(rsqrt) && v != Zero
    ensures Len2(Scale(limit, Normalize(rsqrt, v))) == Sq(limit)
  {
    Len2Scale(limit, Normalize(rsqrt, v));
  }

  lemma ScaledNormalCross(rsqrt: real -> real, v: Vec3, limit: real)
    ensures Cross(Scale(limit, Normalize(rsqrt, v)), v) == Zero
  {
    var k := rsqrt(Len2(v));
    ScaleScale(limit, k, v);
    CrossScaleSelf(limit * k, v);
  }

  lemma ScaledNormalDot(rsqrt: real -> real, v: Vec3, limit: real)
    requires InverseSqrt(rsqrt) && v != Zero && limit > 0.0
    ensures Dot(Scale(limit, Normalize(rsqrt, v)), v) > 0.0
  {
    var k := rsqrt(Len2(v));
    Len2Positive(v);
    DotScale(limit, Normalize(rsqrt, v), v);
    DotScale(k, v, v);
    DotSelf(v);
    PositiveProduct(k, Len2(v));
    PositiveProduct(limit, k * Len2(v));
  }

  /** The boxes of the simulator are closed: both corners belong to them. */
  datatype Box = Box(low: Vec3, high: Vec3)

  predicate InBox(p: Vec3, b: Box) {
    && b.low.x <= p.x <= b.high.x
    && b.low.y <= p.y <= b.high.y
    && b.low.z <= p.z <= b.high.z
  }

  function Diagonal(b: Box): Vec3 { Sub(b.high, b.low) }
}
