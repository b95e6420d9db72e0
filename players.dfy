/** Player.cs: the ship's health, controls, camera follow, origin shift and drawing. */
module Players {
  import opened Wrappers
  import opened Vectors
  import opened Drawing
  import opened Entities
  import opened Cameras
  import opened Traces
  import opened PhysicsObjects

  /** `Math.PI`, the double nearest to π, written out exactly. */
  const Pi: real := 3.141592653589793115997963468544185161590576171875

  const Yellow: Color := Color(255, 255, 0)

  /** The camera centre is kept within this squared distance of the world origin. */
  const MaxCenter2: real := 100.0 * 100.0

  /** The ship settings `Player` reads from `Settings.Grab`. */
  datatype ShipSettings = ShipSettings(
    size: real, shapeAngle: real, health: real, thrust: real, torque: real,
    useJoystick: bool, keyThrust: int, keyTurnLeft: int, keyTurnRight: int)

  /** `Math.Sin` and `Math.Cos`, which the model does not compute. */
  datatype Trig = Trig(sin: real -> real, cos: real -> real)

  /** The calls `Update` makes on the ship's body and on the physics world, in order. */
  datatype PhysicsCall =
    | ApplyForce(force: Vec2)
    | ApplyTorque(torque: real)
    | ShiftOrigin(shift: Vec2)

  /** The body's state `Update` reads: position and linear velocity. */
  datatype Motion = Motion(position: Vec2, velocity: Vec2)

  /** The ship's triangle: the nose at (0, size) and two tail corners at ±angle. */
  function HullVertices(s: ShipSettings, trig: Trig): seq<Vec2> {
    [Vec2(0.0, s.size),
     Vec2(trig.sin(s.shapeAngle) * -s.size, trig.cos(s.shapeAngle) * -s.size),
     Vec2(trig.sin(-s.shapeAngle) * -s.size, trig.cos(-s.shapeAngle) * -s.size)]
  }

  /** The exhaust's corners in body coordinates: the tail at ±angle/2 and a tip that grows with the exhaust. */
  function ExhaustVertices(s: ShipSettings, trig: Trig, exhaust: real): seq<Vec2> {
    var angle := s.shapeAngle / 2.0;
    [Vec2(trig.sin(angle) * -s.size, trig.cos(angle) * -s.size),
     Vec2(trig.sin(-angle) * -s.size, trig.cos(-angle) * -s.size),
     Vec2(0.0, -s.size - s.size * exhaust)]
  }

  /** The exhaust as drawn: the screen images of its three corners joined into a closed loop in red. */
  function ExhaustLines(v: View, toWorld: Vec2 -> Vec2, corners: seq<Vec2>): seq<GraphicsCall>
    requires Projectable(v)
  {
    ClosedEdges(seq(|corners|, i requires 0 <= i < |corners| => ScreenPoint(v, toWorld(corners[i]))), Red)
  }

  /** The exhaust is a closed triangle: three red segments, each starting where the previous ended. */
  lemma ExhaustIsTriangle(v: View, toWorld: Vec2 -> Vec2, s: ShipSettings, trig: Trig, exhaust: real)
    requires Projectable(v)
    ensures var r := ExhaustLines(v, toWorld, ExhaustVertices(s, trig, exhaust));
      && |r| == 3
      && r[0].p2 == r[1].p1 && r[1].p2 == r[2].p1 && r[2].p2 == r[0].p1
      && r[0].color == r[1].color == r[2].color == Red
  {
    var corners := ExhaustVertices(s, trig, exhaust);
    ClosedEdgesLoop(seq(3, i requires 0 <= i < 3 => ScreenPoint(v, toWorld(corners[i]))), Red);
  }

  /** The screen points of a run of float points. */
  function PointsOf(s: seq<Vec2>): seq<Point> {
    seq(|s|, i requires 0 <= i < |s| => PointOf(s[i]))
  }

  lemma CornersOnScreen(ps: seq<Vec2>, v: View, toWorld: Vec2 -> Vec2, corners: seq<Vec2>)
    requires Projectable(v) && |ps| == |corners|
    requires forall k :: 0 <= k < |ps| ==> ps[k] == Project(v, toWorld(corners[k]))
    ensures PointsOf(ps) == seq(|corners|, i requires 0 <= i < |corners| => ScreenPoint(v, toWorld(corners[i])))
  {
  }

  /** One more segment of a closed loop. */
  lemma ClosedEdgesStep(ps: seq<Point>, i: nat, color: Color)
    requires i < |ps|
    ensures ClosedEdges(ps, color)[..i + 1] == ClosedEdges(ps, color)[..i] + [LineCall(ps[i], ps[(i + 1) % |ps|], color)]
  {
  }

  /** The exhaust's corners in a new array. */
  method ExhaustCorners(s: ShipSettings, trig: Trig, exhaust: real) returns (points: array<Vec2>)
    ensures fresh(points) && points.Length == 3
    ensures forall k :: 0 <= k < 3 ==> points[k] == ExhaustVertices(s, trig, exhaust)[k]
  {
    points := new Vec2[3];
    var angle := s.shapeAngle / 2.0;
    points[0] := Vec2(trig.sin(angle) * -s.size, trig.cos(angle) * -s.size);
    points[1] := Vec2(trig.sin(-angle) * -s.size, trig.cos(-angle) * -s.size);
    points[2] := Vec2(0.0, -s.size - s.size * exhaust);
    ghost var corners := ExhaustVertices(s, trig, exhaust);
    assert corners[0] == points[0] && corners[1] == points[1] && corners[2] == points[2];
  }

  /** Each point moved to the screen in place: `points[i] = camera.Transform(toWorld(points[i]))`. */
  method ToScreen(camera: Camera, points: array<Vec2>, toWorld: Vec2 -> Vec2)
    requires Projectable(camera.CurrentView())
    modifies points
    ensures forall k :: 0 <= k < points.Length ==> points[k] == Project(camera.CurrentView(), toWorld(old(points[k])))
  {
    var i := 0;
    while i < points.Length
      invariant 0 <= i <= points.Length
      invariant forall k :: 0 <= k < i ==> points[k] == Project(camera.CurrentView(), toWorld(old(points[k])))
      invariant forall k :: i <= k < points.Length ==> points[k] == old(points[k])
    {
      var vec := toWorld(points[i]);
      points[i] := camera.Transform(vec.x, vec.y);
      i := i + 1;
    }
  }

  /** `DrawPolygon`: a segment from each point to the next, the last one back to the first. */
  method ClosedLoop(points: array<Vec2>, color: Color) returns (lines: seq<GraphicsCall>)
    ensures lines == ClosedEdges(PointsOf(points[..]), color)
  {
    ghost var ps := PointsOf(points[..]);
    lines := [];
    var i := 0;
    while i < points.Length
      invariant 0 <= i <= points.Length
      invariant lines == ClosedEdges(ps, color)[..i]
    {
      ClosedEdgesStep(ps, i, color);
      lines := lines + [LineCall(PointOf(points[i]), PointOf(points[(i + 1) % points.Length]), color)];
      i := i + 1;
    }
  }

  /** The health arc: centred at (50, 50), radius 50, from angle 0 sweeping health·2π. */
  function HealthArc(health: real): GraphicsCall {
    ArcCall(Vec2(50.0, 50.0), 50.0, 0.0, health * (2.0 * Pi), Red)
  }

  /** What one collision takes off the health: the first contact's normal impulse squared over `ShipHealth`. */
  function Deduction(impulse: real, shipHealth: real): (d: real)
    requires shipHealth != 0.0
    ensures shipHealth > 0.0 ==> d >= 0.0
  {
    SquareNonNegative(impulse);
    if shipHealth > 0.0 then DivNonNegative(impulse * impulse, shipHealth); impulse * impulse / shipHealth
    else impulse * impulse / shipHealth
  }

  lemma DivNonNegative(a: real, b: real)
    requires a >= 0.0 && b > 0.0
    ensures a / b >= 0.0
  {
    var q := a / b;
    assert q * b == a;
    if q < 0.0 {
      MulPositive(-q, b);
    }
  }

  /** The force along the ship's nose, in body coordinates. */
  function Forward(thrust: real, amount: real): Vec2 { Vec2(0.0, thrust * amount) }

  /** The torque of a stick deflection. */
  function Turn(torque: real, amount: real): real { torque * amount }

  function Max(a: real, b: real): real { if a >= b then a else b }

  /**
   * The force and torque calls of one `Update` and the new `_drawExhaust`. With a
   * joystick the stick's forward axis (never negative) drives thrust and exhaust and
   * its side axis the torque; otherwise each of three keys adds its own call.
   */
  function Controls(keys: set<int>, s: ShipSettings, joystick: Vec2, toWorldVector: Vec2 -> Vec2): (r: (seq<PhysicsCall>, real))
    ensures s.useJoystick ==>
      && r.1 >= 0.0 && r.1 >= joystick.y && (joystick.y >= 0.0 ==> r.1 == joystick.y)
      && r.0 == [ApplyForce(toWorldVector(Forward(s.thrust, Max(0.0, joystick.y)))), ApplyTorque(Turn(s.torque, joystick.x))]
  {
    if s.useJoystick then
      var forward := Max(0.0, joystick.y);
      ([ApplyForce(toWorldVector(Forward(s.thrust, forward))), ApplyTorque(Turn(s.torque, joystick.x))], forward)
    else
      var thrust := if s.keyThrust in keys then [ApplyForce(toWorldVector(Vec2(0.0, s.thrust)))] else [];
      var right := if s.keyTurnRight in keys then [ApplyTorque(s.torque)] else [];
      var left := if s.keyTurnLeft in keys then [ApplyTorque(-s.torque)] else [];
      (thrust + right + left, if s.keyThrust in keys then 1.0 else 0.0)
  }

  /** The forces among a run of calls, in order. */
  function Forces(cs: seq<PhysicsCall>): seq<Vec2> {
    if |cs| == 0 then []
    else Forces(cs[..|cs| - 1]) + (if cs[|cs| - 1].ApplyForce? then [cs[|cs| - 1].force] else [])
  }

  /** The sum of the torques among a run of calls. */
  function NetTorque(cs: seq<PhysicsCall>): real {
    if |cs| == 0 then 0.0
    else NetTorque(cs[..|cs| - 1]) + (if cs[|cs| - 1].ApplyTorque? then cs[|cs| - 1].torque else 0.0)
  }

  lemma {:induction false} ForcesAndTorqueAppend(a: seq<PhysicsCall>, b: seq<PhysicsCall>)
    ensures Forces(a + b) == Forces(a) + Forces(b)
    ensures NetTorque(a + b) == NetTorque(a) + NetTorque(b)
  {
    if |b| > 0 {
      var init := b[..|b| - 1];
      assert (a + b)[..|a + b| - 1] == a + init;
      ForcesAndTorqueAppend(a, init);
    } else {
      assert a + b == a;
    }
  }

  /**
   * Keyboard mode: the thrust key alone decides the forward force and the exhaust,
   * each turn key adds its own torque, and no key affects another's call.
   */
  lemma KeysActIndependently(keys: set<int>, s: ShipSettings, joystick: Vec2, toWorldVector: Vec2 -> Vec2)
    requires !s.useJoystick
    ensures var (cs, exhaust) := Controls(keys, s, joystick, toWorldVector);
      && Forces(cs) == (if s.keyThrust in keys then [toWorldVector(Vec2(0.0, s.thrust))] else [])
      && exhaust == (if s.keyThrust in keys then 1.0 else 0.0)
      && NetTorque(cs) == (if s.keyTurnRight in keys then s.torque else 0.0) + (if s.keyTurnLeft in keys then -s.torque else 0.0)
      && |cs| == (if s.keyThrust in keys then 1 else 0) + (if s.keyTurnRight in keys then 1 else 0) + (if s.keyTurnLeft in keys then 1 else 0)
  {
    var thrust := if s.keyThrust in keys then [ApplyForce(toWorldVector(Vec2(0.0, s.thrust)))] else [];
    var right := if s.keyTurnRight in keys then [ApplyTorque(s.torque)] else [];
    var left := if s.keyTurnLeft in keys then [ApplyTorque(-s.torque)] else [];
    ForcesAndTorqueAppend(thrust, right);
    ForcesAndTorqueAppend(thrust + right, left);
    assert Forces(right) == [] && Forces(left) == [];
    assert NetTorque(thrust) == 0.0;
  }

  /** The new camera centre: `(old·damp + target)·(1/(damp + 1))` with `damp = 1/dt`. */
  function Follow(oldCenter: Vec2, target: Vec2, dt: real): Vec2
    requires dt > 0.0
  {
    var damp := 1.0 / dt;
    Scale(Add(Scale(oldCenter, damp), target), 1.0 / (damp + 1.0))
  }

  /** With `w = dt/(1 + dt)`, a weight strictly between 0 and 1, the follow moves the old centre a fraction `w` towards the target. */
  lemma FollowIsConvex(oldCenter: Vec2, target: Vec2, dt: real)
    requires dt > 0.0
    ensures var w := dt / (1.0 + dt);
      && 0.0 < w < 1.0
      && Follow(oldCenter, target, dt) == Add(Scale(oldCenter, 1.0 - w), Scale(target, w))
  {
    FollowCoordinate(oldCenter.x, target.x, dt);
    FollowCoordinate(oldCenter.y, target.y, dt);
  }

  lemma FollowCoordinate(o: real, t: real, dt: real)
    requires dt > 0.0
    ensures var w := dt / (1.0 + dt);
      && 0.0 < w < 1.0
      && (o * (1.0 / dt) + t) * (1.0 / (1.0 / dt + 1.0)) == o * (1.0 - w) + t * w
  {
    var damp := 1.0 / dt;
    var w := dt / (1.0 + dt);
    assert damp * dt == 1.0;
    assert (damp + 1.0) * dt == 1.0 + dt;
    assert 1.0 / (damp + 1.0) == w;
    assert 1.0 - w == 1.0 / (1.0 + dt);
    assert damp * w == 1.0 / (1.0 + dt);
  }

  /** The entities of the three traces, in order. */
  function TraceIds(ts: seq<PlayerLineTrace>): seq<Entity> {
    seq(|ts|, i requires 0 <= i < |ts| => ts[i].self)
  }

  function TraceHandlers(ids: seq<Entity>): seq<Handler> {
    seq(|ids|, i requires 0 <= i < |ids| => ShiftHandler(ids[i]))
  }

  class Player {
    const self: Entity
    /** The Farseer polygon, yellow, that `PhysicsObject.Draw` draws. */
    const body: Body
    var traces: Option<seq<PlayerLineTrace>>
    var addTrace: bool
    var drawExhaust: real
    var health: real

    /** Health starts at 1; the traces are made on the first draw. */
    constructor(id: Entity, bodyId: nat, s: ShipSettings, trig: Trig)
      ensures self == id && body == Body(bodyId, [PolygonShape(HullVertices(s, trig))], Some(Yellow))
      ensures health == 1.0 && drawExhaust == 0.0 && !addTrace && traces.None?
    {
      self := id;
      body := Body(bodyId, [PolygonShape(HullVertices(s, trig))], Some(Yellow));
      traces := None;
      addTrace := false;
      drawExhaust := 0.0;
      health := 1.0;
    }

    /** `PlayerOnCollision`: with a positive `ShipHealth` health never goes up. */
    method OnCollision(impulse: real, shipHealth: real)
      requires shipHealth != 0.0
      modifies this
      ensures health == old(health) - Deduction(impulse, shipHealth)
      ensures shipHealth > 0.0 ==> health <= old(health)
      ensures traces == old(traces) && addTrace == old(addTrace) && drawExhaust == old(drawExhaust)
    {
      health := health - Deduction(impulse, shipHealth);
    }

    /**
     * `Draw`: on the first call, make the three traces (each registering its
     * origin-shift handler) and mark them for spawning; then the exhaust when it
     * is lit, the body, and the health arc. `traceIds` are the traces' entities;
     * `toWorld` is `GetWorldPoint`. An unknown fixture shape stops the drawing.
     */
    method Draw(camera: Camera, traceIds: seq<Entity>, s: ShipSettings, trig: Trig, toWorld: Vec2 -> Vec2)
      returns (calls: seq<GraphicsCall>, failure: Option<string>)
      requires |traceIds| == 3 && Projectable(camera.CurrentView())
      modifies this, camera
      ensures old(traces).None? ==>
        && traces.Some? && TraceIds(traces.value) == traceIds && addTrace
        && (forall i :: 0 <= i < 3 ==> fresh(traces.value[i]) && traces.value[i].subscribed == camera && traces.value[i].vertexIndex == i)
        && camera.subscribers == old(camera.subscribers) + TraceHandlers(traceIds)
      ensures old(traces).Some? ==> traces == old(traces) && addTrace == old(addTrace) && camera.subscribers == old(camera.subscribers)
      ensures camera.Pose() == old(camera.Pose())
      ensures health == old(health) && drawExhaust == old(drawExhaust)
      ensures var exhaust := if drawExhaust > 0.0 then ExhaustLines(camera.CurrentView(), toWorld, ExhaustVertices(s, trig, drawExhaust)) else [];
        var (base, f) := FixtureLines(body.fixtures, camera.CurrentView(), toWorld, Pen(body));
        && failure == f
        && calls == exhaust + base + (if f.None? then [HealthArc(health)] else [])
    {
      MakeTraces(camera, traceIds);
      calls := [];
      if drawExhaust > 0.0 {
        calls := DrawExhaust(camera, s, trig, toWorld);
      }
      var base;
      base, failure := PhysicsObjects.Draw(Some(body), camera, toWorld);
      calls := calls + base;
      if failure.None? {
        calls := calls + [HealthArc(health)];
      }
    }

    /** The first part of `Draw`: three traces, made once, and marked for spawning. */
    method MakeTraces(camera: Camera, traceIds: seq<Entity>)
      requires |traceIds| == 3
      modifies this, camera
      ensures old(traces).None? ==>
        && traces.Some? && TraceIds(traces.value) == traceIds && addTrace
        && (forall i :: 0 <= i < 3 ==> fresh(traces.value[i]) && traces.value[i].subscribed == camera && traces.value[i].vertexIndex == i)
        && camera.subscribers == old(camera.subscribers) + TraceHandlers(traceIds)
      ensures old(traces).Some? ==> traces == old(traces) && addTrace == old(addTrace) && camera.subscribers == old(camera.subscribers)
      ensures camera.Pose() == old(camera.Pose())
      ensures health == old(health) && drawExhaust == old(drawExhaust)
    {
      if traces.None? {
        var t0 := new PlayerLineTrace(camera, traceIds[0], 0);
        var t1 := new PlayerLineTrace(camera, traceIds[1], 1);
        var t2 := new PlayerLineTrace(camera, traceIds[2], 2);
        traces := Some([t0, t1, t2]);
        addTrace := true;
        assert TraceHandlers(traceIds) == [ShiftHandler(traceIds[0]), ShiftHandler(traceIds[1]), ShiftHandler(traceIds[2])];
      }
    }

    /** The exhaust corners mapped to the screen in place, then joined by three lines. */
    method DrawExhaust(camera: Camera, s: ShipSettings, trig: Trig, toWorld: Vec2 -> Vec2) returns (lines: seq<GraphicsCall>)
      requires Projectable(camera.CurrentView())
      ensures lines == ExhaustLines(camera.CurrentView(), toWorld, ExhaustVertices(s, trig, drawExhaust))
    {
      ghost var corners := ExhaustVertices(s, trig, drawExhaust);
      ghost var v := camera.CurrentView();
      var points := ExhaustCorners(s, trig, drawExhaust);
      ToScreen(camera, points, toWorld);
      CornersOnScreen(points[..], v, toWorld, corners);
      lines := ClosedLoop(points, Red);
    }

    /**
     * `Update`: spawn the traces the last `Draw` made; die when health is negative;
     * do nothing more unless `dt > 0`; otherwise apply the controls, move the camera
     * towards `position + 2·velocity`, and, when the camera is more than 100 from the
     * origin, shift the world by the camera centre and broadcast that shift (the
     * handlers named in `broadcast` then run with its vector).
     */
    method Update(dt: real, keys: set<int>, s: ShipSettings, joystick: Vec2, motion: Motion,
                  toWorldVector: Vec2 -> Vec2, camera: Camera)
      returns (req: Requests, commands: seq<PhysicsCall>, broadcast: Option<(seq<Handler>, Vec2)>)
      requires addTrace ==> traces.Some?
      modifies this, camera
      ensures req.spawns == (if old(addTrace) then TraceIds(old(traces).value) else [])
      ensures !addTrace && traces == old(traces) && health == old(health)
      ensures req.deaths == (if old(health) < 0.0 then [self] else [])
      ensures req.move.Move? <==> old(health) >= 0.0 && dt > 0.0
      ensures Track(camera.center, camera.centerVelocity) == Moved(Track(old(camera.center), old(camera.centerVelocity)), req.move)
      ensures req.move.Move? ==> (req.move.shift <==> broadcast.Some?) && (broadcast.Some? ==> broadcast.value.1 == req.move.center)
      ensures camera.subscribers == old(camera.subscribers) && camera.sizeMultiplier == old(camera.sizeMultiplier)
      ensures camera.screenScale == old(camera.screenScale)
      ensures old(health) < 0.0 || dt <= 0.0 ==>
        commands == [] && broadcast.None? && drawExhaust == old(drawExhaust) && camera.Pose() == old(camera.Pose())
      ensures old(health) >= 0.0 && dt > 0.0 ==>
        var (controls, exhaust) := Controls(keys, s, joystick, toWorldVector);
        var followed := Follow(old(camera.center), Add(motion.position, Scale(motion.velocity, 2.0)), dt);
        && drawExhaust == exhaust
        && camera.centerVelocity == Scale(Sub(followed, old(camera.center)), 1.0 / dt)
        && (broadcast.Some? <==> Length2(followed) > MaxCenter2)
        && (broadcast.None? ==> commands == controls && camera.center == followed)
        && (broadcast.Some? ==>
              && commands == controls + [ShiftOrigin(followed)] && camera.center == Zero
              && broadcast.value == (old(camera.subscribers), followed))
        && Length2(camera.center) <= MaxCenter2
    {
      req := NoRequests;
      commands := [];
      broadcast := None;
      if addTrace {
        req := req.(spawns := TraceIds(traces.value));
        addTrace := false;
      }
      if health < 0.0 {
        req := req.(deaths := [self]);
        return;
      }
      if dt <= 0.0 {
        return;
      }
      var controls, exhaust := ApplyControls(keys, s, joystick, toWorldVector);
      commands := controls;
      drawExhaust := exhaust;
      var damp := 1.0 / dt;
      var target := Add(motion.position, Scale(motion.velocity, 2.0));
      var oldCenter := camera.center;
      camera.center := Scale(Add(Scale(oldCenter, damp), target), 1.0 / (damp + 1.0));
      camera.centerVelocity := Scale(Sub(camera.center, oldCenter), 1.0 / dt);
      req := req.(move := Move(camera.center, camera.centerVelocity, Length2(camera.center) > MaxCenter2));
      if Length2(camera.center) > MaxCenter2 {
        commands := commands + [ShiftOrigin(camera.center)];
        var notified, shift := camera.OriginShift();
        broadcast := Some((notified, shift));
      }
    }

    /** The joystick or keyboard branch of `Update`. */
    method ApplyControls(keys: set<int>, s: ShipSettings, joystick: Vec2, toWorldVector: Vec2 -> Vec2)
      returns (calls: seq<PhysicsCall>, exhaust: real)
      ensures calls == Controls(keys, s, joystick, toWorldVector).0
      ensures exhaust == Controls(keys, s, joystick, toWorldVector).1
    {
      calls := [];
      if s.useJoystick {
        var forward := Max(0.0, joystick.y);
        exhaust := forward;
        var force := toWorldVector(Forward(s.thrust, forward));
        calls := calls + [ApplyForce(force)];
        calls := calls + [ApplyTorque(Turn(s.torque, joystick.x))];
      } else {
        if s.keyThrust in keys {
          var force := toWorldVector(Vec2(0.0, s.thrust));
          calls := calls + [ApplyForce(force)];
          exhaust := 1.0;
        } else {
          exhaust := 0.0;
        }
        if s.keyTurnRight in keys {
          calls := calls + [ApplyTorque(s.torque)];
        }
        if s.keyTurnLeft in keys {
          calls := calls + [ApplyTorque(-s.torque)];
        }
      }
    }
  }
}
