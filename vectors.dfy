/** The value types of Vector.cs: a real-valued `Vector2` and an integer `Point`. */
module Vectors {

  /** Vector2: an immutable pair of doubles, modelled over the reals. */
  datatype Vec2 = Vec2(x: real, y: real)

  const Zero: Vec2 := Vec2(0.0, 0.0)

  function Add(l: Vec2, r: Vec2): Vec2 { Vec2(l.x + r.x, l.y + r.y) }

  function Sub(l: Vec2, r: Vec2): Vec2 { Vec2(l.x - r.x, l.y - r.y) }

  function Neg(v: Vec2): Vec2 { Vec2(-v.x, -v.y) }

  /** `Vector2 * double` */
  function Scale(v: Vec2, d: real): Vec2 { Vec2(v.x * d, v.y * d) }

  /** `double * Vector2`, which the source defines as `r * l` */
  function ScaleLeft(d: real, v: Vec2): Vec2 { Scale(v, d) }

  /** The operators act on each coordinate on its own, and scaling on either side agrees. */
  lemma OperatorsComponentwise(l: Vec2, r: Vec2, d: real)
    ensures Add(l, r).x == l.x + r.x && Add(l, r).y == l.y + r.y
    ensures Sub(l, r).x == l.x - r.x && Sub(l, r).y == l.y - r.y
    ensures Neg(l) == Sub(Zero, l)
    ensures ScaleLeft(d, l) == Scale(l, d) == Vec2(d * l.x, d * l.y)
  {
  }

  /** Subtracting and adding back the same vector are inverse: the algebra behind rebasing. */
  lemma SubAddCancel(p: Vec2, s: Vec2)
    ensures Add(Sub(p, s), s) == p && Sub(Add(p, s), s) == p
    ensures Sub(Sub(p, s), Sub(Zero, s)) == p
  {
  }

  /** `Vector2.Length2`: the squared length, never negative. */
  function Length2(v: Vec2): (r: real)
    ensures r >= 0.0
  {
    SquareNonNegative(v.x);
    SquareNonNegative(v.y);
    v.x * v.x + v.y * v.y
  }

  lemma SquareNonNegative(a: real)
    ensures a * a >= 0.0
    ensures a != 0.0 ==> a * a > 0.0
  {
    if a < 0.0 {
      MulPositive(-a, -a);
      assert a * a == (-a) * (-a);
    } else if a > 0.0 {
      MulPositive(a, a);
    }
  }

  lemma MulPositive(a: real, b: real)
    requires a > 0.0 && b > 0.0
    ensures a * b > 0.0
  {
  }

  lemma MulLeq(a: real, b: real, c: real)
    requires 0.0 <= c && a <= b
    ensures a * c <= b * c
  {
    assert b * c - a * c == (b - a) * c;
  }

  /** `Math.Sqrt` is not computed by the model: `l` is *a* length of `v` when it is its non-negative root. */
  ghost predicate IsLengthOf(l: real, v: Vec2) {
    l >= 0.0 && l * l == Length2(v)
  }

  /** A vector has at most one length, so `Length = √Length2` determines it. */
  lemma LengthUnique(a: real, b: real, v: Vec2)
    requires IsLengthOf(a, v) && IsLengthOf(b, v)
    ensures a == b
  {
    SquareInjective(a, b);
  }

  lemma SquareInjective(a: real, b: real)
    requires 0.0 <= a && 0.0 <= b && a * a == b * b
    ensures a == b
  {
    if a < b {
      SquareStrictlyMonotone(a, b);
    } else if b < a {
      SquareStrictlyMonotone(b, a);
    }
  }

  lemma SquareStrictlyMonotone(a: real, b: real)
    requires 0.0 <= a < b
    ensures a * a < b * b
  {
    MulPositive(b - a, b + a);
    assert (b - a) * (b + a) == b * b - a * a;
  }

  /** Point: a pair of 32-bit integers. */
  datatype Point = Point(x: int, y: int)

  const TwoTo31: int := 0x8000_0000
  const TwoTo32: int := 0x1_0000_0000

  predicate IsInt32(v: int) { -TwoTo31 <= v < TwoTo31 }

  /** C# `unchecked` int arithmetic: the result is taken modulo 2^32 into [-2^31, 2^31). */
  function Wrap32(v: int): (w: int)
    ensures IsInt32(w)
    ensures (w - v) % TwoTo32 == 0
    ensures IsInt32(v) ==> w == v
  {
    (v + TwoTo31) % TwoTo32 - TwoTo31
  }

  function PointAdd(l: Point, r: Point): Point { Point(Wrap32(l.x + r.x), Wrap32(l.y + r.y)) }

  function PointSub(l: Point, r: Point): Point { Point(Wrap32(l.x - r.x), Wrap32(l.y - r.y)) }

  /** `Point * int` */
  function PointScale(p: Point, k: int): Point { Point(Wrap32(p.x * k), Wrap32(p.y * k)) }

  /** `int * Point`, which the source defines as `r * l` */
  function PointScaleLeft(k: int, p: Point): Point { PointScale(p, k) }

  /** Without overflow the Point operators are the componentwise sums and products. */
  lemma PointOperatorsComponentwise(l: Point, r: Point, k: int)
    requires IsInt32(l.x + r.x) && IsInt32(l.y + r.y)
    requires IsInt32(l.x - r.x) && IsInt32(l.y - r.y)
    requires IsInt32(l.x * k) && IsInt32(l.y * k)
    ensures PointAdd(l, r) == Point(l.x + r.x, l.y + r.y)
    ensures PointSub(l, r) == Point(l.x - r.x, l.y - r.y)
    ensures PointScaleLeft(k, l) == PointScale(l, k) == Point(k * l.x, k * l.y)
  {
  }

  /** `Vector2.Point`: each coordinate floored (the int conversion of an out-of-range double is not modelled). */
  function PointOf(v: Vec2): (p: Point)
    ensures p.x as real <= v.x < p.x as real + 1.0
    ensures p.y as real <= v.y < p.y as real + 1.0
  {
    Point(v.x.Floor, v.y.Floor)
  }

  /** `Point.Vector` */
  function VectorOf(p: Point): Vec2 { Vec2(p.x as real, p.y as real) }

  /** Converting a point to a vector and flooring back gives the same point. */
  lemma PointVectorRoundTrip(p: Point)
    ensures PointOf(VectorOf(p)) == p
  {
  }

  /** `Point ==` compares both coordinates; `!=` is its negation. */
  predicate PointEq(l: Point, r: Point) { l.x == r.x && l.y == r.y }

  predicate PointNe(l: Point, r: Point) { !PointEq(l, r) }

  /** What `Equals(object)` may be handed. */
  datatype Boxed = NullRef | BoxedPoint(p: Point) | OtherObject

  /** `Equals(object)`: false for null and for non-points, `==` otherwise. */
  predicate PointEquals(self: Point, obj: Boxed) {
    obj != NullRef && obj.BoxedPoint? && PointEq(self, obj.p)
  }

  lemma EqualityAgrees(l: Point, r: Point, obj: Boxed)
    ensures PointEq(l, r) <==> l == r
    ensures PointNe(l, r) <==> l != r
    ensures PointEquals(l, BoxedPoint(r)) <==> PointEq(l, r)
    ensures !PointEquals(l, NullRef) && !PointEquals(l, OtherObject)
  {
  }

  /** `int.GetHashCode()` is the value itself; the point hashes to the bitwise xor of its coordinates. */
  function Bits32(v: int): bv32 {
    ((Wrap32(v) + TwoTo32) % TwoTo32) as bv32
  }

  function PointHash(p: Point): bv32 { Bits32(p.x) ^ Bits32(p.y) }

  /** Equal points hash alike, and the hash is symmetric in the two coordinates. */
  lemma HashRespectsEquality(l: Point, r: Point)
    requires PointEq(l, r)
    ensures PointHash(l) == PointHash(r)
    ensures PointHash(Point(l.y, l.x)) == PointHash(l)
  {
  }
}
