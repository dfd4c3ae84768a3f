/** The two-dimensional vectors of the web demo (gl-matrix `vec2`) and the
    `limit`/`setMag` helpers of its `VecMath` class. The floating-point
    operations that are not exact on reals (square root, angle, rotation,
    division by zero) are abstract parameters. */
module Plane {
  import opened Geometry

  datatype Vec2 = Vec2(x: real, y: real)

  const Origin: Vec2 := Vec2(0.0, 0.0)

  function Add2(a: Vec2, b: Vec2): Vec2 { Vec2(a.x + b.x, a.y + b.y) }

  function Sub2(a: Vec2, b: Vec2): Vec2 { Vec2(a.x - b.x, a.y - b.y) }

  function Scale2(k: real, a: Vec2): Vec2 { Vec2(k * a.x, k * a.y) }

  function Dot2(a: Vec2, b: Vec2): real { a.x * b.x + a.y * b.y }

  /** `vec2.sqrLen`. */
  function SqrLen(a: Vec2): (r: real)
    ensures r >= 0.0
  {
    SqNonNegative(a.x);
    SqNonNegative(a.y);
    Sq(a.x) + Sq(a.y)
  }

  /** Only the zero vector has squared length zero. */
  lemma SqrLenZero(a: Vec2)
    ensures SqrLen(a) == 0.0 <==> a == Origin
  {
    if a.x != 0.0 { SqPositive(a.x); SqNonNegative(a.y); }
    else if a.y != 0.0 { SqPositive(a.y); }
  }

  /** The floating-point operations the demo takes from `Math` and
      gl-matrix: `Math.sqrt`, `vec2.angle`, `vec2.rotate` about the origin,
      the constant `HALF_PI`, and the vector a division by zero leaves (IEEE
      infinities or NaN). */
  datatype Floats = Floats(
    sqrt: real -> real,
    angle: (Vec2, Vec2) -> real,
    rotate: (Vec2, real) -> Vec2,
    halfPi: real,
    overZero: Vec2 -> Vec2)

  /** The law of `Math.sqrt` on the non-negative reals. */
  ghost predicate SquareRoot(sqrt: real -> real) {
    forall s :: s >= 0.0 ==> sqrt(s) >= 0.0 && Sq(sqrt(s)) == s
  }

  /** `vec2.dist`. */
  function Dist(fl: Floats, a: Vec2, b: Vec2): (r: real)
    ensures SquareRoot(fl.sqrt) ==> r >= 0.0 && Sq(r) == SqrLen(Sub2(a, b))
  {
    fl.sqrt(SqrLen(Sub2(a, b)))
  }

  /** `vec2.scale(out, v, 1 / d)` on floats: exact for a non-zero divisor. */
  function Divide2(fl: Floats, v: Vec2, d: real): (r: Vec2)
    ensures d != 0.0 ==> Scale2(d, r) == v
  {
    if d != 0.0 then
      assert d * (1.0 / d) == 1.0;
      assert d * ((1.0 / d) * v.x) == (d * (1.0 / d)) * v.x;
      assert d * ((1.0 / d) * v.y) == (d * (1.0 / d)) * v.y;
      Scale2(1.0 / d, v)
    else fl.overZero(v)
  }

  lemma SqrLenScale(k: real, v: Vec2)
    ensures SqrLen(Scale2(k, v)) == Sq(k) * SqrLen(v)
  {
    SqMul(k, v.x);
    SqMul(k, v.y);
  }

  /** `vec2.normalize`: `v * (1 / sqrt(|v|²))` for a non-zero vector, the zero vector unchanged. */
  function Normalize2(fl: Floats, v: Vec2): (r: Vec2)
    ensures SquareRoot(fl.sqrt) && v != Origin ==> SqrLen(r) == 1.0
    ensures v == Origin ==> r == Origin
  {
    var len := SqrLen(v);
    if len > 0.0 then
      NormalizeUnit(fl, v);
      Divide2(fl, v, fl.sqrt(len))
    else
      SqrLenZero(v);
      Origin
  }

  lemma NormalizeUnit(fl: Floats, v: Vec2)
    requires SqrLen(v) > 0.0
    ensures v != Origin
    ensures SquareRoot(fl.sqrt) ==> SqrLen(Divide2(fl, v, fl.sqrt(SqrLen(v)))) == 1.0
  {
    if SquareRoot(fl.sqrt) {
      UnitAfterRoot(SqrLen(v), fl.sqrt(SqrLen(v)), v);
    }
  }

  lemma UnitAfterRoot(len: real, root: real, v: Vec2)
    requires len == SqrLen(v) > 0.0 && root >= 0.0 && Sq(root) == len
    ensures SqrLen(Scale2(1.0 / root, v)) == 1.0
  {
    SqrLenScale(1.0 / root, v);
    assert root != 0.0;
    SqMul(1.0 / root, root);
    assert (1.0 / root) * root == 1.0;
  }

  /** `VecMath.setMag`: the direction of `v` with length `mag`. */
  function SetMag(fl: Floats, v: Vec2, mag: real): (r: Vec2)
    ensures SquareRoot(fl.sqrt) && v != Origin ==> SqrLen(r) == Sq(mag)
  {
    var n := Normalize2(fl, v);
    SqrLenScale(mag, n);
    Scale2(mag, n)
  }

  /** `VecMath.limit`: `v` unless its squared length exceeds `limit²`, then
      its direction scaled to `limit`. */
  function Limit2(fl: Floats, v: Vec2, limit: real): (r: Vec2)
    ensures SqrLen(v) <= Sq(limit) ==> r == v
    ensures SquareRoot(fl.sqrt) ==> SqrLen(r) <= Sq(limit)
  {
    if SqrLen(v) > Sq(limit) then
      SqNonNegative(limit);
      SetMag(fl, v, limit)
    else
      v
  }
}
