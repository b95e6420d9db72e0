/** AsteroidManager.cs: asteroids appear ahead of the moving camera, never too close to another. */
module AsteroidManagers {
  import opened Wrappers
  import opened Vectors
  import opened Numerics
  import opened Entities
  import opened Cameras
  import opened Asteroids

  /** `AsteroidRadius` and `AsteroidSpacing` from `Settings.Grab`. */
  datatype SpawnSettings = SpawnSettings(radius: real, spacing: real)

  /** The float literal `1.2f`, exactly. */
  const SpawnMargin: real := 1.2000000476837158203125

  /** The squared distance below which a new asteroid would be too close: r²·spacing. */
  function MinGap2(s: SpawnSettings): real {
    s.radius * s.radius * s.spacing
  }

  /**
   * No live asteroid with a body is nearer to `pos` than the gap. `bodyPosition`
   * gives each object's `Body.Position`, or `None` for a null body.
   */
  predicate ClearOf(objects: seq<Entity>, bodyPosition: Entity -> Option<Vec2>, pos: Vec2, s: SpawnSettings) {
    forall i :: 0 <= i < |objects| && objects[i].kind == AsteroidKind && bodyPosition(objects[i]).Some? ==>
      Length2(Sub(bodyPosition(objects[i]).value, pos)) >= MinGap2(s)
  }

  /** `TrySpawnRoid`: scan the live objects (not the spawn queue) and spawn only when no asteroid is too close. */
  method TrySpawnRoid(objects: seq<Entity>, bodyPosition: Entity -> Option<Vec2>, pos: Vec2, s: SpawnSettings)
    returns (spawn: bool)
    ensures spawn <==> ClearOf(objects, bodyPosition, pos, s)
  {
    var good := true;
    var i := 0;
    while i < |objects|
      invariant 0 <= i <= |objects|
      invariant ClearOf(objects[..i], bodyPosition, pos, s)
    {
      var asteroid := objects[i];
      if asteroid.kind == AsteroidKind {
        var body := bodyPosition(asteroid);
        if body.Some? && Length2(Sub(body.value, pos)) < MinGap2(s) {
          good := false;
          break;
        }
      }
      i := i + 1;
    }
    assert good ==> objects[..i] == objects;
    spawn := good;
  }

  /** A spawn attempt fires when a uniform draw falls below |velocity component|·dt (`prob` is 1). */
  predicate Fires(u: real, speed: real, dt: real) {
    u < Abs(speed) * dt * 1.0
  }

  /** A camera that is still, or a zero time step, never fires an attempt. */
  lemma StillNeverFires(u: real, speed: real, dt: real)
    requires 0.0 <= u && (dt <= 0.0 || speed == 0.0)
    ensures !Fires(u, speed, dt)
  {
    if dt < 0.0 && speed != 0.0 {
      MulPositive(Abs(speed), -dt);
      assert Abs(speed) * (-dt) == -(Abs(speed) * dt);
    }
  }

  /** The horizontal candidate: 1.2 camera sizes ahead in x, a uniform offset in y. */
  function HorizontalCandidate(center: Vec2, size: real, vx: real, u: real): Vec2 {
    Add(center, ScaleLeft(SpawnMargin, Vec2(size * Sign(vx) as real, Unit(u) * size)))
  }

  /** The vertical candidate: a uniform offset in x, 1.2 camera sizes ahead in y. */
  function VerticalCandidate(center: Vec2, size: real, vy: real, u: real): Vec2 {
    Add(center, ScaleLeft(SpawnMargin, Vec2(Unit(u) * size, size * Sign(vy) as real)))
  }

  /** `x = M·(size·sign)`: on the box edge the velocity points to, and at the centre when still. */
  lemma AheadOffset(size: real, v: real, x: real)
    requires x == SpawnMargin * (size * Sign(v) as real)
    ensures v != 0.0 ==> Abs(x) == SpawnMargin * Abs(size) && x * v * size >= 0.0
    ensures v == 0.0 ==> x == 0.0
  {
    var m2 := SpawnMargin * (size * size);
    SquareNonNegative(size);
    MulLeq(0.0, SpawnMargin, size * size);
    AbsMul(SpawnMargin, size);
    if v > 0.0 {
      assert x == SpawnMargin * size;
      assert x * v * size == m2 * v;
      MulLeq(0.0, m2, v);
    } else if v < 0.0 {
      assert x == -(SpawnMargin * size);
      assert x * v * size == m2 * -v;
      MulLeq(0.0, m2, -v);
    }
  }

  lemma WithinFactor(a: real, b: real, c: real)
    requires 0.0 <= a <= 1.0 && 0.0 <= b && c == a * b
    ensures c <= b
  {
    MulLeq(a, 1.0, b);
  }

  /** `y = M·(Unit(u)·size)` lies within 1.2 camera sizes of the centre. */
  lemma SpreadOffset(size: real, u: real, y: real)
    requires 0.0 <= u < 1.0 && y == SpawnMargin * (Unit(u) * size)
    ensures Abs(y) <= SpawnMargin * Abs(size)
  {
    var t := Unit(u) * size;
    AbsMul(Unit(u), size);
    WithinFactor(Abs(Unit(u)), Abs(size), Abs(t));
    AbsMul(SpawnMargin, t);
    var at, asz := Abs(t), Abs(size);
    assert Abs(y) == SpawnMargin * at;
    MulLeq(at, asz, SpawnMargin);
    assert SpawnMargin * at <= SpawnMargin * asz;
  }

  /**
   * The horizontal candidate sits 1.2·Size from the camera centre in x, on the side
   * the camera moves towards, and within 1.2·Size of it in y.
   */
  lemma HorizontalAhead(center: Vec2, size: real, v: Vec2, u: real)
    requires 0.0 <= u < 1.0
    ensures var h := HorizontalCandidate(center, size, v.x, u);
      && (v.x != 0.0 ==> Abs(h.x - center.x) == SpawnMargin * Abs(size) && (h.x - center.x) * v.x * size >= 0.0)
      && (v.x == 0.0 ==> h.x == center.x)
      && Abs(h.y - center.y) <= SpawnMargin * Abs(size)
  {
    var h := HorizontalCandidate(center, size, v.x, u);
    AheadOffset(size, v.x, h.x - center.x);
    SpreadOffset(size, u, h.y - center.y);
  }

  /** The vertical candidate is the same with the axes swapped. */
  lemma VerticalAhead(center: Vec2, size: real, v: Vec2, u: real)
    requires 0.0 <= u < 1.0
    ensures var w := VerticalCandidate(center, size, v.y, u);
      && (v.y != 0.0 ==> Abs(w.y - center.y) == SpawnMargin * Abs(size) && (w.y - center.y) * v.y * size >= 0.0)
      && (v.y == 0.0 ==> w.y == center.y)
      && Abs(w.x - center.x) <= SpawnMargin * Abs(size)
  {
    var w := VerticalCandidate(center, size, v.y, u);
    AheadOffset(size, v.y, w.y - center.y);
    SpreadOffset(size, u, w.x - center.x);
  }

  /** The attempts that pass the spacing rule, in order, all judged against the same live objects. */
  function Survivors(attempts: seq<Vec2>, objects: seq<Entity>, bodyPosition: Entity -> Option<Vec2>, s: SpawnSettings): (r: seq<Vec2>)
    ensures |r| <= |attempts|
    ensures forall i :: 0 <= i < |r| ==> r[i] in attempts && ClearOf(objects, bodyPosition, r[i], s)
  {
    if |attempts| == 0 then []
    else
      var rest := Survivors(attempts[1..], objects, bodyPosition, s);
      (if ClearOf(objects, bodyPosition, attempts[0], s) then [attempts[0]] else []) + rest
  }

  /**
   * What an attempt reads besides the camera and the draws: the live objects and
   * their bodies, the spawner's and the asteroid constructor's settings, and the
   * stand-ins `vertsOf` (the vertex count `Next(MinVerts, MaxVerts)` makes of its
   * draw) and `exp` (`Math.Exp`).
   */
  datatype Spawner = Spawner(objects: seq<Entity>, bodyPosition: Entity -> Option<Vec2>, s: SpawnSettings,
                             roid: RoidSettings, vertsOf: real -> nat, exp: real -> real)

  /** The identities a new asteroid gets: the object's and its body's. */
  datatype Identity = Identity(id: Entity, bodyId: nat)

  /** The velocity component an attempt looks at. */
  function Speed(horizontal: bool, v: Vec2): real {
    if horizontal then v.x else v.y
  }

  function Candidate(horizontal: bool, center: Vec2, size: real, v: Vec2, u: real): Vec2 {
    if horizontal then HorizontalCandidate(center, size, v.x, u) else VerticalCandidate(center, size, v.y, u)
  }

  /** The candidates of a run of attempts, the ones spawned, and the index of the next unused draw. */
  datatype Tried = Tried(attempts: seq<Vec2>, spawned: seq<Vec2>, next: nat)

  /**
   * One attempt reading the draws from `i` on: the firing draw; when it fires, the
   * spread draw; when the candidate is clear, the new asteroid's draws. `None` when
   * the draws run out.
   */
  function TryAxis(env: Spawner, draws: seq<real>, i: nat, horizontal: bool, center: Vec2, size: real, v: Vec2, dt: real): (r: Option<Tried>)
    requires i <= |draws|
    ensures r.Some? ==> i < r.value.next <= |draws| && |r.value.attempts| <= 1
  {
    if |draws| <= i then None
    else if !Fires(draws[i], Speed(horizontal, v), dt) then Some(Tried([], [], i + 1))
    else if |draws| <= i + 1 then None
    else
      var pos := Candidate(horizontal, center, size, v, draws[i + 1]);
      if !ClearOf(env.objects, env.bodyPosition, pos, env.s) then Some(Tried([pos], [], i + 2))
      else
        var end := AsteroidEnd(draws, i + 2, env.s.radius, env.roid, env.vertsOf, env.exp);
        if end.None? then None else Some(Tried([pos], [pos], end.value))
  }

  /** An attempt spawns exactly its candidate when that is clear, and takes the new asteroid's draws only then. */
  lemma TryAxisSpawnsClear(env: Spawner, draws: seq<real>, i: nat, horizontal: bool, center: Vec2, size: real, v: Vec2, dt: real)
    requires i <= |draws|
    ensures var r := TryAxis(env, draws, i, horizontal, center, size, v, dt);
      r.Some? ==>
        && r.value.spawned == Survivors(r.value.attempts, env.objects, env.bodyPosition, env.s)
        && (r.value.attempts == [] <==> r.value.next == i + 1)
        && (r.value.attempts != [] && r.value.spawned == [] ==> r.value.next == i + 2)
        && (r.value.spawned != [] ==> r.value.next == AsteroidEnd(draws, i + 2, env.s.radius, env.roid, env.vertsOf, env.exp).value)
  {
    var r := TryAxis(env, draws, i, horizontal, center, size, v, dt);
    if r.Some? && |r.value.attempts| == 1 {
      assert r.value.attempts[1..] == [];
    }
  }

  /**
   * `Update`: a horizontal then a vertical attempt, in that order on the one run
   * of draws, so the vertical attempt's draws start after those of the asteroid
   * the horizontal one may have made. The asteroids it makes go to the spawn queue,
   * so the second attempt does not see the first. `None` when the draws run out;
   * it never queues a death.
   */
  method Update(env: Spawner, camera: Camera, dt: real, draws: seq<real>, hull: seq<Vec2> -> seq<Vec2>,
                horizontalIds: Identity, verticalIds: Identity)
    returns (r: Option<Tried>, roids: seq<Asteroid>)
    requires forall i :: 0 <= i < |draws| ==> 0.0 <= draws[i] < 1.0
    ensures var c, v, size := camera.center, camera.centerVelocity, camera.Size();
      var first := TryAxis(env, draws, 0, true, c, size, v, dt);
      var second := if first.Some? then TryAxis(env, draws, first.value.next, false, c, size, v, dt) else None;
      && (r.Some? <==> second.Some?)
      && (r.Some? ==> r.value == Tried(first.value.attempts + second.value.attempts,
                                       first.value.spawned + second.value.spawned, second.value.next))
    ensures r.Some? ==>
      && r.value.spawned == Survivors(r.value.attempts, env.objects, env.bodyPosition, env.s)
      && |r.value.attempts| <= 2 && r.value.next <= |draws|
      && |roids| == |r.value.spawned|
      && forall k :: 0 <= k < |roids| ==> roids[k].spawnPosition == r.value.spawned[k]
  {
    var c, v, size := camera.center, camera.centerVelocity, camera.Size();
    roids := [];
    var first, firstRoids := Attempt(env, draws, 0, true, c, size, v, dt, hull, horizontalIds);
    if first.None? {
      return None, roids;
    }
    var second, secondRoids := Attempt(env, draws, first.value.next, false, c, size, v, dt, hull, verticalIds);
    if second.None? {
      return None, roids;
    }
    r := Some(Tried(first.value.attempts + second.value.attempts, first.value.spawned + second.value.spawned, second.value.next));
    roids := firstRoids + secondRoids;
    TryAxisSpawnsClear(env, draws, 0, true, c, size, v, dt);
    TryAxisSpawnsClear(env, draws, first.value.next, false, c, size, v, dt);
    SurvivorsOfPair(first.value.attempts, second.value.attempts, env.objects, env.bodyPosition, env.s);
  }

  /** One attempt and its `TrySpawnRoid` call; `roid` holds the asteroid made, if any. */
  method Attempt(env: Spawner, draws: seq<real>, i: nat, horizontal: bool, center: Vec2, size: real, v: Vec2, dt: real,
                 hull: seq<Vec2> -> seq<Vec2>, ids: Identity)
    returns (r: Option<Tried>, roid: seq<Asteroid>)
    requires i <= |draws| && forall j :: 0 <= j < |draws| ==> 0.0 <= draws[j] < 1.0
    ensures r == TryAxis(env, draws, i, horizontal, center, size, v, dt)
    ensures r.Some? ==>
      && |roid| == |r.value.spawned|
      && forall k :: 0 <= k < |roid| ==> roid[k].spawnPosition == r.value.spawned[k] && roid[k].self == ids.id
  {
    roid := [];
    if |draws| <= i {
      return None, roid;
    }
    if !Fires(draws[i], Speed(horizontal, v), dt) {
      return Some(Tried([], [], i + 1)), roid;
    }
    if |draws| <= i + 1 {
      return None, roid;
    }
    var pos := Candidate(horizontal, center, size, v, draws[i + 1]);
    var good := TrySpawnRoid(env.objects, env.bodyPosition, pos, env.s);
    if !good {
      return Some(Tried([pos], [], i + 2)), roid;
    }
    var a, next := NewAsteroid(ids.id, ids.bodyId, env.s.radius, pos, env.roid, env.vertsOf, draws, i + 2, env.exp, hull);
    if a.None? {
      return None, roid;
    }
    roid := [a.value];
    r := Some(Tried([pos], [pos], next));
  }

  lemma SurvivorsOfPair(first: seq<Vec2>, second: seq<Vec2>, objects: seq<Entity>, bodyPosition: Entity -> Option<Vec2>, s: SpawnSettings)
    requires |first| <= 1 && |second| <= 1
    ensures Survivors(first + second, objects, bodyPosition, s)
      == Survivors(first, objects, bodyPosition, s) + Survivors(second, objects, bodyPosition, s)
  {
    if |first| == 1 {
      assert (first + second)[1..] == second;
    } else {
      assert first + second == second;
    }
  }
}
