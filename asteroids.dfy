/** Asteroid.cs: an asteroid's random shape and spin, and its culling outside the camera box. */
module Asteroids {
  import opened Wrappers
  import opened Vectors
  import opened Numerics
  import opened Entities
  import opened Cameras
  import opened Drawing
  import opened PhysicsObjects

  /** The settings the constructor reads from `Settings.Grab`. */
  datatype RoidSettings = RoidSettings(sizeVariety: real, initialVel: real, initialRot: real)

  /** An asteroid is dropped once it is this many `FixedSize`s from the camera centre along either axis. */
  const CullMargin: real := 1.5

  /**
   * `Math.Abs(d / k) > 1` on doubles. Dividing by a zero `k` gives an infinity
   * when `d` is not zero (which exceeds 1) and NaN when it is (which does not).
   */
  predicate ExceedsUnit(d: real, k: real) {
    if k == 0.0 then d != 0.0 else Abs(d / k) > 1.0
  }

  /** The test in `Update`: the offset from the camera centre, over `FixedSize·1.5`, leaves the unit box. */
  predicate Culled(position: Vec2, center: Vec2, fixedSize: real) {
    var offset := Sub(position, center);
    var k := fixedSize * CullMargin;
    ExceedsUnit(offset.x, k) || ExceedsUnit(offset.y, k)
  }

  /** The culling box is 1.5·|FixedSize| either side of the centre on each axis; `SizeMultiplier` plays no part. */
  lemma CulledIsBox(position: Vec2, center: Vec2, fixedSize: real)
    ensures Culled(position, center, fixedSize) <==>
      Abs(position.x - center.x) > CullMargin * Abs(fixedSize) || Abs(position.y - center.y) > CullMargin * Abs(fixedSize)
  {
    var k := fixedSize * CullMargin;
    assert Abs(k) == CullMargin * Abs(fixedSize);
    if k != 0.0 {
      RatioExceedsOne(position.x - center.x, k);
      RatioExceedsOne(position.y - center.y, k);
    }
  }

  lemma RatioExceedsOne(d: real, k: real)
    requires k != 0.0
    ensures Abs(d / k) > 1.0 <==> Abs(d) > Abs(k)
  {
    var q := d / k;
    assert q * k == d;
    AbsMul(q, k);
    var a, b, c := Abs(q), Abs(k), Abs(d);
    assert a * b == c;
    ProductExceeds(a, b, c);
  }

  lemma AbsMul(q: real, k: real)
    ensures Abs(q) * Abs(k) == Abs(q * k)
  {
    if q < 0.0 && k < 0.0 {
      assert Abs(q) * Abs(k) == (-q) * (-k) == q * k;
    } else if q < 0.0 {
      assert Abs(q) * Abs(k) == (-q) * k == -(q * k);
    } else if k < 0.0 {
      assert Abs(q) * Abs(k) == q * (-k) == -(q * k);
    }
  }

  lemma ProductExceeds(a: real, b: real, c: real)
    requires a >= 0.0 && b > 0.0 && a * b == c
    ensures a > 1.0 <==> c > b
  {
    if a > 1.0 {
      MulPositive(a - 1.0, b);
      assert (a - 1.0) * b == a * b - b;
    } else {
      MulLeq(a, 1.0, b);
    }
  }

  /** A uniform draw in [0, 1) stretched to [-1, 1). */
  function Unit(u: real): real { u * 2.0 - 1.0 }

  /** A candidate vertex coordinate: `(NextDouble()·2 − 1)·size`. */
  function Coordinate(u: real, size: real): real { Unit(u) * size }

  predicate InRadius(v: Vec2, size: real) { Length2(v) <= size * size }

  /** The vertices accepted from consecutive pairs of draws, in order; a rejected pair is skipped (`i--`). */
  function Accepted(ds: seq<real>, size: real): seq<Vec2>
    decreases |ds|
  {
    if |ds| < 2 then []
    else
      var v := Vec2(Coordinate(ds[0], size), Coordinate(ds[1], size));
      (if InRadius(v, size) then [v] else []) + Accepted(ds[2..], size)
  }

  /** Every accepted vertex lies in the disc of radius `size`. */
  lemma {:induction false} AcceptedInRadius(ds: seq<real>, size: real)
    ensures forall i :: 0 <= i < |Accepted(ds, size)| ==> InRadius(Accepted(ds, size)[i], size)
    decreases |ds|
  {
    if |ds| >= 2 {
      AcceptedInRadius(ds[2..], size);
    }
  }

  lemma {:induction false} AcceptedAppend(a: seq<real>, b: seq<real>, size: real)
    requires |a| % 2 == 0
    ensures Accepted(a + b, size) == Accepted(a, size) + Accepted(b, size)
    decreases |a|
  {
    if |a| == 0 {
      assert a + b == b;
    } else {
      assert (a + b)[2..] == a[2..] + b;
      AcceptedAppend(a[2..], b, size);
    }
  }

  /**
   * Where the vertex loop stops: the index after the pairs of draws from `from` on
   * that yield `numVerts` more accepted vertices; `None` when the draws run out first.
   */
  function VerticesEnd(ds: seq<real>, from: nat, numVerts: nat, size: real): (r: Option<nat>)
    requires from <= |ds|
    ensures r.Some? ==> from <= r.value <= |ds|
    decreases |ds| - from
  {
    if numVerts == 0 then Some(from)
    else if |ds| < from + 2 then None
    else
      var v := Vec2(Coordinate(ds[from], size), Coordinate(ds[from + 1], size));
      VerticesEnd(ds, from + 2, if InRadius(v, size) then numVerts - 1 else numVerts, size)
  }

  /** One pair of draws further into the vertex loop. */
  lemma VerticesStep(ds: seq<real>, i: nat, k: nat, size: real)
    requires k > 0 && i + 2 <= |ds|
    ensures var v := Vec2(Coordinate(ds[i], size), Coordinate(ds[i + 1], size));
      VerticesEnd(ds, i, k, size) == VerticesEnd(ds, i + 2, if InRadius(v, size) then k - 1 else k, size)
  {
  }

  /** The vertices accepted up to `i`, extended by the pair at `i` or by a lone last draw. */
  lemma AcceptedStep(ds: seq<real>, from: nat, i: nat, size: real)
    requires from <= i <= |ds| && (i - from) % 2 == 0
    ensures |ds| < i + 2 ==> Accepted(ds[from..], size) == Accepted(ds[from..i], size)
    ensures i + 2 <= |ds| ==>
      var v := Vec2(Coordinate(ds[i], size), Coordinate(ds[i + 1], size));
      Accepted(ds[from..i + 2], size) == Accepted(ds[from..i], size) + (if InRadius(v, size) then [v] else [])
  {
    if |ds| < i + 2 {
      AcceptedAppend(ds[from..i], ds[i..], size);
      assert ds[from..] == ds[from..i] + ds[i..];
    } else {
      AcceptedAppend(ds[from..i], ds[i..i + 2], size);
      assert ds[from..i + 2] == ds[from..i] + ds[i..i + 2];
    }
  }

  /**
   * The vertex loop of the constructor: pairs of draws from `from` on, until
   * `numVerts` are accepted. `None` when the draws run out first.
   */
  method SampleVertices(draws: seq<real>, from: nat, numVerts: nat, size: real) returns (r: Option<(seq<Vec2>, nat)>)
    requires from <= |draws|
    ensures r.Some? ==>
      && from <= r.value.1 <= |draws| && r.value.0 == Accepted(draws[from..r.value.1], size)
      && |r.value.0| == numVerts
    ensures r.None? ==> |Accepted(draws[from..], size)| < numVerts
    ensures r.None? <==> VerticesEnd(draws, from, numVerts, size).None?
    ensures r.Some? ==> r.value.1 == VerticesEnd(draws, from, numVerts, size).value
  {
    var verts := [];
    var i := from;
    while |verts| < numVerts
      invariant from <= i <= |draws| && (i - from) % 2 == 0
      invariant verts == Accepted(draws[from..i], size) && |verts| <= numVerts
      invariant VerticesEnd(draws, from, numVerts, size) == VerticesEnd(draws, i, numVerts - |verts|, size)
      decreases |draws| - i
    {
      if |draws| < i + 2 {
        AcceptedStep(draws, from, i, size);
        return None;
      }
      var vert := Vec2(Coordinate(draws[i], size), Coordinate(draws[i + 1], size));
      VerticesStep(draws, i, numVerts - |verts|, size);
      AcceptedStep(draws, from, i, size);
      if InRadius(vert, size) {
        verts := verts + [vert];
      }
      i := i + 2;
    }
    r := Some((verts, i));
  }

  /** The pair of draws at `i` as a vector in [-1, 1)². */
  function UnitPair(ds: seq<real>, i: nat): Vec2
    requires i + 1 < |ds|
  {
    Vec2(Unit(ds[i]), Unit(ds[i + 1]))
  }

  /** Where the direction loop stops: the index after the first pair from `from` on inside the unit disc. */
  function DirectionEnd(ds: seq<real>, from: nat): (r: Option<nat>)
    requires from <= |ds|
    ensures r.Some? ==> from + 2 <= r.value <= |ds|
    decreases |ds| - from
  {
    if |ds| < from + 2 then None
    else if Length2(UnitPair(ds, from)) <= 1.0 then Some(from + 2)
    else DirectionEnd(ds, from + 2)
  }

  /** One pair of draws further into the direction loop. */
  lemma DirectionStep(ds: seq<real>, i: nat)
    requires i + 2 <= |ds|
    ensures DirectionEnd(ds, i) == if Length2(UnitPair(ds, i)) <= 1.0 then Some(i + 2) else DirectionEnd(ds, i + 2)
  {
  }

  /**
   * The `do … while (vel.LengthSquared() > 1)` loop: the first pair from `from` on
   * that falls in the unit disc, and the index after it. `None` when the draws run out.
   */
  method SampleDirection(draws: seq<real>, from: nat) returns (r: Option<(Vec2, nat)>)
    requires from <= |draws|
    ensures r.Some? ==>
      && from + 2 <= r.value.1 <= |draws| && (r.value.1 - from) % 2 == 0
      && r.value.0 == UnitPair(draws, r.value.1 - 2) && Length2(r.value.0) <= 1.0
      && forall j :: from <= j < r.value.1 - 2 && (j - from) % 2 == 0 ==> Length2(UnitPair(draws, j)) > 1.0
    ensures r.None? ==> forall j :: from <= j && j + 1 < |draws| && (j - from) % 2 == 0 ==> Length2(UnitPair(draws, j)) > 1.0
    ensures r.None? <==> DirectionEnd(draws, from).None?
    ensures r.Some? ==> r.value.1 == DirectionEnd(draws, from).value
  {
    var i := from;
    while true
      invariant from <= i <= |draws| && (i - from) % 2 == 0
      invariant DirectionEnd(draws, from) == DirectionEnd(draws, i)
      invariant forall j :: from <= j < i && (j - from) % 2 == 0 ==> Length2(UnitPair(draws, j)) > 1.0
      decreases |draws| - i
    {
      if |draws| < i + 2 {
        return None;
      }
      var vel := UnitPair(draws, i);
      DirectionStep(draws, i);
      i := i + 2;
      if Length2(vel) <= 1.0 {
        return Some((vel, i));
      }
    }
  }

  /** A direction in the unit disc scaled by a positive speed is at most that speed long. */
  lemma ScaledDiscBound(v: Vec2, speed: real)
    requires Length2(v) <= 1.0 && speed > 0.0
    ensures Length2(Scale(v, speed)) <= speed * speed
  {
    var s2 := speed * speed;
    assert (v.x * speed) * (v.x * speed) == (v.x * v.x) * s2;
    assert (v.y * speed) * (v.y * speed) == (v.y * v.y) * s2;
    assert Length2(Scale(v, speed)) == Length2(v) * s2;
    SquareNonNegative(speed);
    MulLeq(Length2(v), 1.0, s2);
  }

  /** The spin: a draw squared times `AsteroidInitialRot`, so between 0 and the setting. */
  function Spin(u: real, rot: real): (w: real)
    requires 0.0 <= u < 1.0 && rot > 0.0
    ensures 0.0 <= w < rot
  {
    assert u * u < 1.0 by {
      if u > 0.0 { MulLeq(u, 1.0, u); }
    }
    SquareNonNegative(u);
    MulLeq(u * u, 1.0, rot);
    assert u * u * rot < rot by {
      MulPositive(1.0 - u * u, rot);
      assert (1.0 - u * u) * rot == rot - u * u * rot;
    }
    u * u * rot
  }

  class Asteroid {
    const self: Entity
    const size: real
    /** The accepted vertices, before `GetConvexHull`. */
    const vertices: seq<Vec2>
    /** The hull polygon, with no `UserData`, so it is drawn in the default pen. */
    const body: Body
    const spawnPosition: Vec2
    const linearVelocity: Vec2
    const angularVelocity: real

    constructor(id: Entity, size: real, vertices: seq<Vec2>, body: Body, position: Vec2, linearVelocity: Vec2, angularVelocity: real)
      ensures self == id && this.size == size && this.vertices == vertices && this.body == body
      ensures spawnPosition == position && this.linearVelocity == linearVelocity && this.angularVelocity == angularVelocity
    {
      self := id;
      this.size := size;
      this.vertices := vertices;
      this.body := body;
      spawnPosition := position;
      this.linearVelocity := linearVelocity;
      this.angularVelocity := angularVelocity;
    }

    /** `Update`: queue its own death, once, when the body has left the camera box; it never spawns. */
    method Update(camera: Camera, position: Vec2) returns (req: Requests)
      ensures req.spawns == []
      ensures req.deaths == (if Culled(position, camera.center, camera.fixedSize) then [self] else [])
      ensures req.move == Keep
    {
      var offset := Sub(position, camera.center);
      var k := camera.fixedSize * CullMargin;
      if ExceedsUnit(offset.x, k) || ExceedsUnit(offset.y, k) {
        req := Requests([], [self], Keep);
      } else {
        req := NoRequests;
      }
    }
  }

  /** The size: `Math.Exp(AsteroidSizeVariety·(u − 0.5))·sizeParam`, with `exp` for `Math.Exp`. */
  function RoidSize(u: real, sizeParam: real, s: RoidSettings, exp: real -> real): real {
    exp(s.sizeVariety * (u - 0.5)) * sizeParam
  }

  /**
   * Where the constructor's draws from `from` on end: one for the size, one for
   * `Next(MinVerts, MaxVerts)` (which `vertsOf` turns into the vertex count), the
   * vertex pairs, the direction pairs when `AsteroidInitialVel > 0`, and one for
   * the spin when `AsteroidInitialRot > 0`. `None` when the draws run out first.
   */
  function AsteroidEnd(ds: seq<real>, from: nat, sizeParam: real, s: RoidSettings, vertsOf: real -> nat, exp: real -> real): (r: Option<nat>)
    requires from <= |ds|
    ensures r.Some? ==> from + 2 <= r.value <= |ds|
  {
    if |ds| < from + 2 then None
    else
      var size := RoidSize(ds[from], sizeParam, s, exp);
      var verts := VerticesEnd(ds, from + 2, vertsOf(ds[from + 1]), size);
      if verts.None? then None
      else
        var vel := if s.initialVel > 0.0 then DirectionEnd(ds, verts.value) else verts;
        if vel.None? then None
        else if s.initialRot <= 0.0 then vel
        else if vel.value < |ds| then Some(vel.value + 1)
        else None
  }

  /**
   * The constructor, reading the draws from `from` on in the order `AsteroidEnd`
   * gives; `next` is the index after them. `exp` and `hull` stand for `Math.Exp`
   * and `GiftWrap.GetConvexHull`. `None` when the draws run out before the loops end.
   */
  method NewAsteroid(id: Entity, bodyId: nat, sizeParam: real, position: Vec2, s: RoidSettings, vertsOf: real -> nat,
                     draws: seq<real>, from: nat, exp: real -> real, hull: seq<Vec2> -> seq<Vec2>)
    returns (r: Option<Asteroid>, next: nat)
    requires from <= |draws|
    requires forall i :: 0 <= i < |draws| ==> 0.0 <= draws[i] < 1.0
    ensures r.Some? <==> AsteroidEnd(draws, from, sizeParam, s, vertsOf, exp).Some?
    ensures r.Some? ==>
      var a := r.value;
      && next == AsteroidEnd(draws, from, sizeParam, s, vertsOf, exp).value
      && a.self == id && a.spawnPosition == position
      && a.size == RoidSize(draws[from], sizeParam, s, exp)
      && |a.vertices| == vertsOf(draws[from + 1])
      && (forall i :: 0 <= i < |a.vertices| ==> InRadius(a.vertices[i], a.size))
      && a.body == Body(bodyId, [PolygonShape(hull(a.vertices))], None) && Pen(a.body) == White
      && (s.initialVel > 0.0 ==> Length2(a.linearVelocity) <= s.initialVel * s.initialVel)
      && (s.initialVel <= 0.0 ==> a.linearVelocity == Zero)
      && (s.initialRot > 0.0 ==> 0.0 <= a.angularVelocity < s.initialRot)
      && (s.initialRot <= 0.0 ==> a.angularVelocity == 0.0)
  {
    next := from;
    if |draws| < from + 2 {
      return None, next;
    }
    var size := RoidSize(draws[from], sizeParam, s, exp);
    var numVerts := vertsOf(draws[from + 1]);
    var sampled := SampleVertices(draws, from + 2, numVerts, size);
    if sampled.None? {
      assert VerticesEnd(draws, from + 2, numVerts, size).None?;
      assert AsteroidEnd(draws, from, sizeParam, s, vertsOf, exp).None?;
      return None, next;
    }
    var verts;
    verts, next := sampled.value.0, sampled.value.1;
    ghost var afterVerts := next;
    assert VerticesEnd(draws, from + 2, numVerts, size) == Some(afterVerts);
    AcceptedInRadius(draws[from + 2..next], size);
    var body := Body(bodyId, [PolygonShape(hull(verts))], None);
    var velocity := Zero;
    if s.initialVel > 0.0 {
      var direction := SampleDirection(draws, next);
      if direction.None? {
        return None, next;
      }
      velocity := Scale(direction.value.0, s.initialVel);
      ScaledDiscBound(direction.value.0, s.initialVel);
      next := direction.value.1;
    }
    ghost var afterVel := next;
    assert (if s.initialVel > 0.0 then DirectionEnd(draws, afterVerts) else Some(afterVerts)) == Some(afterVel);
    var spin := 0.0;
    if s.initialRot > 0.0 {
      if |draws| <= next {
        assert AsteroidEnd(draws, from, sizeParam, s, vertsOf, exp).None?;
        return None, next;
      }
      spin := Spin(draws[next], s.initialRot);
      next := next + 1;
    }
    var a := new Asteroid(id, size, verts, body, position, velocity, spin);
    r := Some(a);
    assert AsteroidEnd(draws, from, sizeParam, s, vertsOf, exp) == Some(next);
  }
}
