/**
 * Spacerunner3/PhysicsObject.cs, the earlier revision: the shared physics world,
 * drawing a body with an on-screen test per fixture, the player, its 50-point
 * trails, asteroid culling and the asteroid spacing rule.
 */
module LegacyObjects {
  import opened Wrappers
  import opened Vectors
  import opened Numerics
  import opened Drawing
  import opened Entities
  import Cameras
  import Traces
  import Players
  import Asteroids
  import AsteroidManagers
  import PhysicsObjects
  import opened LegacyScenes

  /** What `Graphics` receives, in float screen coordinates (`PointF`). */
  datatype CanvasCall =
    | DrawLines(pen: Color, points: seq<Vec2>)
    | DrawPolygon(pen: Color, points: seq<Vec2>)
    | DrawLine(pen: Color, from: Vec2, to: Vec2)
    | DrawEllipse(pen: Color, topLeft: Vec2, size: Vec2)
    | DrawArc(pen: Color, topLeft: Vec2, size: Vec2, startAngle: real, sweepAngle: real)

  /** A fixture's shape, by its runtime type. */
  datatype Shape =
    | PolygonShape(vertices: seq<Vec2>)
    | EdgeShape(vertex1: Vec2, vertex2: Vec2)
    | CircleShape(position: Vec2, radius: real)
    | OtherShape(typeName: string)

  /** The world-space box `ComputeAABB` gives for one broad-phase proxy. */
  datatype Box = Box(center: Vec2, extents: Vec2)

  /** A fixture: its shape and the boxes of its `ProxyCount` proxies. */
  datatype Fixture = Fixture(shape: Shape, proxies: seq<Box>)

  /** The parts of a Farseer `Body` drawing and death read: its id in the world, its fixtures, and its `UserData` when that is a `Pen`. */
  datatype Body = Body(id: nat, fixtures: seq<Fixture>, userPen: Option<Color>)

  /** `body.UserData as Pen ?? defaultPen`, the default being white. */
  function Pen(body: Body): Color {
    body.userPen.GetOr(White)
  }

  /**
   * `graphics.ClipBounds.IntersectsWith(new RectangleF(topLeft, size))`: the clip
   * rectangle is the state of the graphics object, so the test is a parameter.
   */
  type Clip = (Vec2, Vec2) -> bool

  /** The screen rectangle of a proxy box: the transformed top-left corner and the offset to the transformed bottom-right one. */
  function BoxRect(l: Lens, b: Box): (Vec2, Vec2)
    requires Usable(l)
  {
    var tl := Screen(l, Sub(b.center, b.extents));
    var br := Screen(l, Add(b.center, b.extents));
    (tl, Sub(br, tl))
  }

  predicate BoxVisible(l: Lens, b: Box, clip: Clip)
    requires Usable(l)
  {
    clip(BoxRect(l, b).0, BoxRect(l, b).1)
  }

  /** Some proxy of the fixture meets the clip bounds. */
  predicate OnScreen(l: Lens, boxes: seq<Box>, clip: Clip)
    requires Usable(l)
  {
    exists i :: 0 <= i < |boxes| && BoxVisible(l, boxes[i], clip)
  }

  function UnknownShape(name: string): string {
    "Unknown shape type " + name
  }

  /** The one call a visible fixture makes, or the exception of an unknown shape; `toWorld` is `body.GetWorldPoint`. */
  function ShapeCall(shape: Shape, l: Lens, toWorld: Vec2 -> Vec2, pen: Color): Result<CanvasCall, string>
    requires Usable(l)
  {
    match shape
    case PolygonShape(vs) => Ok(DrawPolygon(pen, seq(|vs|, i requires 0 <= i < |vs| => Screen(l, toWorld(vs[i])))))
    case EdgeShape(a, b) => Ok(DrawLine(pen, Screen(l, toWorld(a)), Screen(l, toWorld(b))))
    case CircleShape(c, r) =>
      var pos := toWorld(c);
      var tl := Screen(l, Sub(pos, Vec2(r, r)));
      var br := Screen(l, Add(pos, Vec2(r, r)));
      Ok(DrawEllipse(pen, tl, Sub(br, tl)))
    case OtherShape(name) => Err(UnknownShape(name))
  }

  /** A fixture that makes `Draw` throw: an unknown shape with a proxy on screen. */
  predicate Throws(f: Fixture, l: Lens, clip: Clip)
    requires Usable(l)
  {
    f.shape.OtherShape? && OnScreen(l, f.proxies, clip)
  }

  /**
   * What `Draw` emits for the fixtures `fs`, in order, and the exception that stops
   * it; a fixture with no proxy on screen is passed over before its shape is looked at.
   */
  function FixtureCalls(fs: seq<Fixture>, l: Lens, toWorld: Vec2 -> Vec2, clip: Clip, pen: Color): (seq<CanvasCall>, Option<string>)
    requires Usable(l)
  {
    if |fs| == 0 then ([], None)
    else
      var (before, failure) := FixtureCalls(fs[..|fs| - 1], l, toWorld, clip, pen);
      var last := fs[|fs| - 1];
      if failure.Some? || !OnScreen(l, last.proxies, clip) then (before, failure)
      else match ShapeCall(last.shape, l, toWorld, pen)
        case Ok(c) => (before + [c], None)
        case Err(m) => (before, Some(m))
  }

  /**
   * `Draw` throws exactly when some fixture has an unknown shape and a proxy on
   * screen: an unknown shape that is off screen is harmless.
   */
  lemma {:induction false} FailsExactly(fs: seq<Fixture>, l: Lens, toWorld: Vec2 -> Vec2, clip: Clip, pen: Color)
    requires Usable(l)
    ensures FixtureCalls(fs, l, toWorld, clip, pen).1.Some? <==> exists i :: 0 <= i < |fs| && Throws(fs[i], l, clip)
  {
    if |fs| > 0 {
      var init := fs[..|fs| - 1];
      FailsExactly(init, l, toWorld, clip, pen);
      if exists i :: 0 <= i < |init| && Throws(init[i], l, clip) {
        var i :| 0 <= i < |init| && Throws(init[i], l, clip);
        assert fs[i] == init[i];
      }
      if exists i :: 0 <= i < |fs| && Throws(fs[i], l, clip) {
        var i :| 0 <= i < |fs| && Throws(fs[i], l, clip);
        if i < |init| {
          assert init[i] == fs[i];
        }
      }
    }
  }

  /** Once a fixture throws, the later ones draw nothing more. */
  lemma {:induction false} FailureSticks(fs: seq<Fixture>, k: nat, l: Lens, toWorld: Vec2 -> Vec2, clip: Clip, pen: Color)
    requires Usable(l)
    requires k <= |fs|
    requires FixtureCalls(fs[..k], l, toWorld, clip, pen).1.Some?
    ensures FixtureCalls(fs[..|fs|], l, toWorld, clip, pen) == FixtureCalls(fs[..k], l, toWorld, clip, pen)
    decreases |fs| - k
  {
    if k < |fs| {
      assert fs[..k + 1][..k] == fs[..k];
      FailureSticks(fs, k + 1, l, toWorld, clip, pen);
    }
  }

  /** A run of fixtures with no proxy on screen draws nothing, whatever their shapes. */
  lemma {:induction false} OffScreenDrawsNothing(fs: seq<Fixture>, l: Lens, toWorld: Vec2 -> Vec2, clip: Clip, pen: Color)
    requires Usable(l)
    requires forall i :: 0 <= i < |fs| ==> !OnScreen(l, fs[i].proxies, clip)
    ensures FixtureCalls(fs, l, toWorld, clip, pen) == ([], None)
  {
    if |fs| > 0 {
      OffScreenDrawsNothing(fs[..|fs| - 1], l, toWorld, clip, pen);
    }
  }

  /** The world moved by `s`: every proxy box moves with it. */
  function MovedFixture(f: Fixture, s: Vec2): Fixture {
    Fixture(f.shape, seq(|f.proxies|, i requires 0 <= i < |f.proxies| => Box(Add(f.proxies[i].center, s), f.proxies[i].extents)))
  }

  function MovedFixtures(fs: seq<Fixture>, s: Vec2): seq<Fixture> {
    seq(|fs|, i requires 0 <= i < |fs| => MovedFixture(fs[i], s))
  }

  function MovedLens(l: Lens, s: Vec2): Lens {
    Lens(Add(l.center, s), l.size, l.width, l.height)
  }

  lemma BoxRectMoves(l: Lens, b: Box, s: Vec2)
    requires Usable(l)
    ensures BoxRect(MovedLens(l, s), Box(Add(b.center, s), b.extents)) == BoxRect(l, b)
  {
    assert Sub(Add(b.center, s), b.extents) == Add(Sub(b.center, b.extents), s);
    assert Add(Add(b.center, s), b.extents) == Add(Add(b.center, b.extents), s);
    ScreenTranslationInvariant(l, Sub(b.center, b.extents), s);
    ScreenTranslationInvariant(l, Add(b.center, b.extents), s);
  }

  lemma OnScreenMoves(l: Lens, f: Fixture, s: Vec2, clip: Clip)
    requires Usable(l)
    ensures OnScreen(MovedLens(l, s), MovedFixture(f, s).proxies, clip) == OnScreen(l, f.proxies, clip)
  {
    var moved := MovedFixture(f, s).proxies;
    forall i | 0 <= i < |f.proxies|
      ensures BoxVisible(MovedLens(l, s), moved[i], clip) == BoxVisible(l, f.proxies[i], clip)
    {
      BoxRectMoves(l, f.proxies[i], s);
    }
    if OnScreen(l, f.proxies, clip) {
      var i :| 0 <= i < |f.proxies| && BoxVisible(l, f.proxies[i], clip);
      assert BoxVisible(MovedLens(l, s), moved[i], clip);
    }
  }

  lemma ShapeCallMoves(shape: Shape, l: Lens, toWorld: Vec2 -> Vec2, s: Vec2, pen: Color)
    requires Usable(l)
    ensures ShapeCall(shape, MovedLens(l, s), p => Add(toWorld(p), s), pen) == ShapeCall(shape, l, toWorld, pen)
  {
    var moved := MovedLens(l, s);
    var movedWorld := (p: Vec2) => Add(toWorld(p), s);
    forall p: Vec2
      ensures Screen(moved, movedWorld(p)) == Screen(l, toWorld(p))
    {
      ScreenTranslationInvariant(l, toWorld(p), s);
    }
    match shape
    case PolygonShape(vs) =>
      var a := seq(|vs|, i requires 0 <= i < |vs| => Screen(moved, movedWorld(vs[i])));
      var b := seq(|vs|, i requires 0 <= i < |vs| => Screen(l, toWorld(vs[i])));
      assert a == b;
    case EdgeShape(_, _) =>
    case CircleShape(c, r) =>
      var pos := toWorld(c);
      assert Sub(movedWorld(c), Vec2(r, r)) == Add(Sub(pos, Vec2(r, r)), s);
      assert Add(movedWorld(c), Vec2(r, r)) == Add(Add(pos, Vec2(r, r)), s);
      ScreenTranslationInvariant(l, Sub(pos, Vec2(r, r)), s);
      ScreenTranslationInvariant(l, Add(pos, Vec2(r, r)), s);
    case OtherShape(_) =>
  }

  /**
   * The picture survives a shift of the world origin: moving the camera centre,
   * every body point and every proxy box by the same vector draws the same calls.
   */
  lemma {:induction false} DrawTranslationInvariant(fs: seq<Fixture>, l: Lens, toWorld: Vec2 -> Vec2, clip: Clip, pen: Color, s: Vec2)
    requires Usable(l)
    ensures FixtureCalls(MovedFixtures(fs, s), MovedLens(l, s), p => Add(toWorld(p), s), clip, pen)
         == FixtureCalls(fs, l, toWorld, clip, pen)
  {
    if |fs| > 0 {
      var init := fs[..|fs| - 1];
      assert MovedFixtures(fs, s)[..|fs| - 1] == MovedFixtures(init, s);
      DrawTranslationInvariant(init, l, toWorld, clip, pen, s);
      OnScreenMoves(l, fs[|fs| - 1], s, clip);
      ShapeCallMoves(fs[|fs| - 1].shape, l, toWorld, s, pen);
    }
  }

  /** `Draw`: nothing for a null body; otherwise each fixture that passes the on-screen test, in the body's pen. */
  method DrawBody(body: Option<Body>, camera: Camera, toWorld: Vec2 -> Vec2, clip: Clip)
    returns (calls: seq<CanvasCall>, failure: Option<string>)
    requires Usable(camera.CurrentLens())
    ensures body.None? ==> calls == [] && failure.None?
    ensures body.Some? ==> (calls, failure) == FixtureCalls(body.value.fixtures, camera.CurrentLens(), toWorld, clip, Pen(body.value))
  {
    calls, failure := [], None;
    if body.None? {
      return;
    }
    var pen := Pen(body.value);
    var fs := body.value.fixtures;
    ghost var l := camera.CurrentLens();
    var k := 0;
    while k < |fs|
      invariant 0 <= k <= |fs|
      invariant (calls, None) == FixtureCalls(fs[..k], l, toWorld, clip, pen)
    {
      assert fs[..k + 1][..k] == fs[..k];
      var draw := Visible(fs[k].proxies, camera, clip);
      if draw {
        var r := DrawShape(fs[k].shape, camera, toWorld, pen);
        if r.Err? {
          failure := Some(r.error);
          FailureSticks(fs, k + 1, l, toWorld, clip, pen);
          assert fs[..|fs|] == fs;
          return;
        }
        calls := calls + [r.value];
      }
      k := k + 1;
    }
    assert fs[..k] == fs;
  }

  /** The proxy loop: transform each box and stop at the first that meets the clip bounds. */
  method Visible(boxes: seq<Box>, camera: Camera, clip: Clip) returns (draw: bool)
    requires Usable(camera.CurrentLens())
    ensures draw == OnScreen(camera.CurrentLens(), boxes, clip)
  {
    draw := false;
    var i := 0;
    while i < |boxes|
      invariant 0 <= i <= |boxes|
      invariant !draw && forall j :: 0 <= j < i ==> !BoxVisible(camera.CurrentLens(), boxes[j], clip)
    {
      var topLeft := Sub(boxes[i].center, boxes[i].extents);
      var bottomRight := Add(boxes[i].center, boxes[i].extents);
      var tl := camera.Transform(topLeft.x, topLeft.y);
      var br := camera.Transform(bottomRight.x, bottomRight.y);
      if clip(tl, Sub(br, tl)) {
        draw := true;
        return;
      }
      i := i + 1;
    }
  }

  /** The shape dispatch: polygon, edge, circle, or the exception. */
  method DrawShape(shape: Shape, camera: Camera, toWorld: Vec2 -> Vec2, pen: Color) returns (r: Result<CanvasCall, string>)
    requires Usable(camera.CurrentLens())
    ensures r == ShapeCall(shape, camera.CurrentLens(), toWorld, pen)
  {
    ghost var l := camera.CurrentLens();
    match shape
    case PolygonShape(vs) =>
      var points := new Vec2[|vs|](_ => Zero);
      var i := 0;
      while i < |vs|
        invariant 0 <= i <= |vs|
        invariant forall j :: 0 <= j < i ==> points[j] == Screen(l, toWorld(vs[j]))
      {
        var vert := toWorld(vs[i]);
        points[i] := camera.Transform(vert.x, vert.y);
        i := i + 1;
      }
      assert points[..] == seq(|vs|, i requires 0 <= i < |vs| => Screen(l, toWorld(vs[i])));
      r := Ok(DrawPolygon(pen, points[..]));
    case EdgeShape(a, b) =>
      var v1 := toWorld(a);
      var v2 := toWorld(b);
      var p1 := camera.Transform(v1.x, v1.y);
      var p2 := camera.Transform(v2.x, v2.y);
      r := Ok(DrawLine(pen, p1, p2));
    case CircleShape(c, radius) =>
      var pos := toWorld(c);
      var topLeft := Sub(pos, Vec2(radius, radius));
      var bottomRight := Add(pos, Vec2(radius, radius));
      var tl := camera.Transform(topLeft.x, topLeft.y);
      var br := camera.Transform(bottomRight.x, bottomRight.y);
      r := Ok(DrawEllipse(pen, tl, Sub(br, tl)));
    case OtherShape(name) =>
      r := Err(UnknownShape(name));
  }

  /** The Farseer `World` the physics objects share: the ids of the bodies in it, and the time steps taken so far. */
  class World {
    var bodies: set<nat>
    var steps: seq<real>

    /** `new World(new Vector2(0, 0))`: no gravity, no bodies. */
    constructor()
      ensures bodies == {} && steps == []
    {
      bodies := {};
      steps := [];
    }
  }

  /** The static field `PhysicsObject.world`: null until a `PhysicsManager` is first made. */
  class Statics {
    var world: World?

    constructor()
      ensures world == null
    {
      world := null;
    }
  }

  /** The `PhysicsManager` constructor: the world is created only when there is none; a later game keeps the world it finds. */
  method NewPhysicsManager(statics: Statics)
    modifies statics
    ensures old(statics.world) != null ==> statics.world == old(statics.world)
    ensures old(statics.world) == null ==>
      statics.world != null && fresh(statics.world) && statics.world.bodies == {} && statics.world.steps == []
  {
    if statics.world == null {
      statics.world := new World();
    }
  }

  /** `PhysicsManager.Update`: one step of length `dt`, whatever `dt` is; the bodies stay. */
  method StepWorld(world: World, dt: real)
    modifies world
    ensures world.steps == old(world.steps) + [dt] && world.bodies == old(world.bodies)
  {
    world.steps := world.steps + [dt];
  }

  /** `OnDie`: the body, when there is one, leaves the world. */
  method OnDie(body: Option<Body>, world: World)
    modifies world
    ensures body.Some? ==> world.bodies == old(world.bodies) - {body.value.id}
    ensures body.None? ==> world.bodies == old(world.bodies)
    ensures world.steps == old(world.steps)
  {
    if body.Some? {
      world.bodies := world.bodies - {body.value.id};
    }
  }

  /** `Asteroid.Update`: queue its own death when its body has left the box of 1.5·`FixedSize` around the camera. */
  method AsteroidUpdate(self: Entity, camera: Camera, position: Vec2) returns (req: Requests)
    ensures req.spawns == []
    ensures req.deaths == (if Asteroids.Culled(position, camera.center, camera.fixedSize) then [self] else [])
    ensures req.move == Keep
  {
    var offset := Sub(position, camera.center);
    var k := camera.fixedSize * Asteroids.CullMargin;
    if Asteroids.ExceedsUnit(offset.x, k) || Asteroids.ExceedsUnit(offset.y, k) {
      req := Requests([], [self], Keep);
    } else {
      req := NoRequests;
    }
  }

  /**
   * A tag for the `NullReferenceException` that dereferencing a null asteroid body
   * raises; the text is only a label, not the runtime's message. An asteroid made
   * by the constructor never has a null body, so this path needs a body that was
   * never built.
   */
  const NullBody: string := "Asteroid.Body should be non-null"

  /** The first asteroid that is too close to `pos`, or has a null body, among the first `n` objects. */
  function FirstStop(objects: seq<Entity>, bodyPosition: Entity -> Option<Vec2>, pos: Vec2, s: AsteroidManagers.SpawnSettings, n: nat): (r: Option<nat>)
    requires n <= |objects|
    ensures r.Some? ==> r.value < n && objects[r.value].kind == AsteroidKind
  {
    if n == 0 then None
    else
      var before := FirstStop(objects, bodyPosition, pos, s, n - 1);
      var e := objects[n - 1];
      if before.Some? then before
      else if e.kind == AsteroidKind
        && (bodyPosition(e).None? || Length2(Sub(bodyPosition(e).value, pos)) < AsteroidManagers.MinGap2(s))
      then Some(n - 1)
      else None
  }

  /**
   * `TrySpawnRoid` without a null-body guard: the scan stops at the first asteroid
   * that is too close (no spawn) or whose body is null (the exception); past the
   * end, it spawns.
   */
  method TrySpawnRoid(objects: seq<Entity>, bodyPosition: Entity -> Option<Vec2>, pos: Vec2, s: AsteroidManagers.SpawnSettings)
    returns (r: Result<bool, string>)
    ensures var stop := FirstStop(objects, bodyPosition, pos, s, |objects|);
      && (stop.None? ==> r == Ok(true))
      && (stop.Some? && bodyPosition(objects[stop.value]).None? ==> r == Err(NullBody))
      && (stop.Some? && bodyPosition(objects[stop.value]).Some? ==> r == Ok(false))
  {
    var i := 0;
    while i < |objects|
      invariant 0 <= i <= |objects|
      invariant FirstStop(objects, bodyPosition, pos, s, i).None?
    {
      var asteroid := objects[i];
      if asteroid.kind == AsteroidKind {
        var body := bodyPosition(asteroid);
        if body.None? {
          StopStays(objects, bodyPosition, pos, s, i + 1, |objects|);
          return Err(NullBody);
        }
        if Length2(Sub(body.value, pos)) < AsteroidManagers.MinGap2(s) {
          StopStays(objects, bodyPosition, pos, s, i + 1, |objects|);
          return Ok(false);
        }
      }
      i := i + 1;
    }
    r := Ok(true);
  }

  /** Once found, the first stop stays the first stop as the scan range grows. */
  lemma {:induction false} StopStays(objects: seq<Entity>, bodyPosition: Entity -> Option<Vec2>, pos: Vec2, s: AsteroidManagers.SpawnSettings, m: nat, n: nat)
    requires m <= n <= |objects|
    requires FirstStop(objects, bodyPosition, pos, s, m).Some?
    ensures FirstStop(objects, bodyPosition, pos, s, n) == FirstStop(objects, bodyPosition, pos, s, m)
    decreases n - m
  {
    if m < n {
      StopStays(objects, bodyPosition, pos, s, m, n - 1);
    }
  }

  /**
   * When every asteroid has a body the scan never throws, and it spawns exactly
   * when no asteroid is too close: the rule of the guarded scan.
   */
  lemma {:induction false} SpawnRuleWithBodies(objects: seq<Entity>, bodyPosition: Entity -> Option<Vec2>, pos: Vec2, s: AsteroidManagers.SpawnSettings, n: nat)
    requires n <= |objects|
    requires forall i :: 0 <= i < |objects| && objects[i].kind == AsteroidKind ==> bodyPosition(objects[i]).Some?
    ensures var stop := FirstStop(objects, bodyPosition, pos, s, n);
      && (stop.Some? ==> bodyPosition(objects[stop.value]).Some?)
      && (stop.None? <==> AsteroidManagers.ClearOf(objects[..n], bodyPosition, pos, s))
  {
    if n > 0 {
      SpawnRuleWithBodies(objects, bodyPosition, pos, s, n - 1);
      assert objects[..n][..n - 1] == objects[..n - 1];
      assert objects[..n][n - 1] == objects[n - 1];
      if !AsteroidManagers.ClearOf(objects[..n - 1], bodyPosition, pos, s) {
        var i :| 0 <= i < n - 1 && objects[..n - 1][i].kind == AsteroidKind && bodyPosition(objects[..n - 1][i]).Some?
          && Length2(Sub(bodyPosition(objects[..n - 1][i]).value, pos)) < AsteroidManagers.MinGap2(s);
        assert objects[..n][i] == objects[..n - 1][i];
      }
    }
  }

  /** The rollover of the trace counter, `0.125f` (exact in binary). */
  const Rollover: real := 0.125
  /** The length of the trace history. */
  const HistoryLength: nat := 50

  /** The counter reduced on a push lies in [0, 0.125). */
  lemma RolloverBounds(c: real)
    requires c >= 0.0
    ensures 0.0 <= FMod(c, Rollover) < Rollover
  {
  }

  /** The 52 screen points `Draw` joins: the future position, the current one, then the history. */
  function TracePoints(l: Lens, line: seq<Vec2>, body: Traces.TracedBody, futurePrediction: real): seq<Vec2>
    requires Usable(l)
  {
    var future := Add(body.pos, Scale(body.velocity, futurePrediction));
    [Screen(l, future), Screen(l, body.pos)] + seq(|line|, i requires 0 <= i < |line| => Screen(l, line[i]))
  }

  /**
   * An origin shift moves the camera centre and the body to the new origin and
   * rebases the history by the same vector: the trail stays where it was on screen.
   */
  lemma TraceSurvivesShift(l: Lens, line: seq<Vec2>, body: Traces.TracedBody, futurePrediction: real, shift: Vec2)
    requires Usable(l)
    ensures TracePoints(MovedLens(l, Neg(shift)), Traces.Rebased(line, shift), Traces.TracedBody(Sub(body.pos, shift), body.velocity), futurePrediction)
         == TracePoints(l, line, body, futurePrediction)
  {
    var moved := MovedLens(l, Neg(shift));
    forall p: Vec2
      ensures Screen(moved, Sub(p, shift)) == Screen(l, p)
    {
      assert Sub(p, shift) == Add(p, Neg(shift));
      ScreenTranslationInvariant(l, p, Neg(shift));
    }
    var future := Add(body.pos, Scale(body.velocity, futurePrediction));
    assert Add(Sub(body.pos, shift), Scale(body.velocity, futurePrediction)) == Sub(future, shift);
  }

  class LineTrace {
    const self: Entity
    const subscribed: Camera
    const vertexIndex: int
    const line: array<Vec2>
    var counter: real

    /** Registers `OnOriginShift` and allocates a zeroed 50-point history. */
    constructor(camera: Camera, id: Entity, vertexIndex: int)
      modifies camera
      ensures self == id && subscribed == camera && this.vertexIndex == vertexIndex
      ensures camera.subscribers == old(camera.subscribers) + [Cameras.ShiftHandler(id)]
      ensures camera.Pose() == old(camera.Pose())
      ensures fresh(line) && line.Length == HistoryLength && counter == 0.0
      ensures forall i :: 0 <= i < line.Length ==> line[i] == Zero
    {
      self := id;
      this.vertexIndex := vertexIndex;
      subscribed := camera;
      camera.Subscribe(Cameras.ShiftHandler(id));
      line := new Vec2[HistoryLength](_ => Zero);
      counter := 0.0;
    }

    /** Subtracts the shift from every buffered point. */
    method OnOriginShift(shift: Vec2)
      modifies line
      ensures line[..] == Traces.Rebased(old(line[..]), shift)
    {
      Traces.RebaseInPlace(line, shift);
    }

    /** Unregisters the handler the constructor registered. */
    method OnDie()
      modifies subscribed
      ensures subscribed.subscribers == Cameras.RemoveLast(old(subscribed.subscribers), Cameras.ShiftHandler(self))
      ensures subscribed.Pose() == old(subscribed.Pose())
    {
      subscribed.Unsubscribe(Cameras.ShiftHandler(self));
    }

    /**
     * Adds `dt` to the counter; past 0.125 the counter is reduced mod 0.125, the
     * history moves one slot and slot 0 takes the traced position (the player's
     * body is never null here).
     */
    method Update(dt: real, body: Traces.TracedBody)
      requires line.Length == HistoryLength
      modifies this, line
      ensures var c := old(counter) + dt;
        if c > Rollover then counter == FMod(c, Rollover) && line[..] == Traces.Pushed(old(line[..]), body.pos)
        else counter == c && line[..] == old(line[..])
      ensures 0.0 <= old(counter) <= Rollover && dt >= 0.0 ==> 0.0 <= counter <= Rollover
    {
      counter := counter + dt;
      if counter > Rollover {
        RolloverBounds(counter);
        counter := FMod(counter, Rollover);
        Traces.ShiftHistory(line);
        line[0] := body.pos;
        assert line[..] == [line[0]] + line[1..];
      }
    }

    /** One `DrawLines` call in slate grey through future → current → history[0] → … → history[49]. */
    method Draw(camera: Camera, body: Traces.TracedBody, futurePrediction: real) returns (call: CanvasCall)
      requires Usable(camera.CurrentLens())
      ensures call == DrawLines(Traces.SlateGray, TracePoints(camera.CurrentLens(), line[..], body, futurePrediction))
      ensures |call.points| == line.Length + 2
    {
      ghost var l := camera.CurrentLens();
      var points := new Vec2[line.Length + 2](_ => Zero);
      var i := 0;
      while i < line.Length
        invariant 0 <= i <= line.Length
        invariant forall j :: 0 <= j < i ==> points[j + 2] == Screen(l, line[j])
      {
        var point := line[i];
        points[i + 2] := camera.Transform(point.x, point.y);
        i := i + 1;
      }
      var current := body.pos;
      points[1] := camera.Transform(current.x, current.y);
      var future := Add(current, Scale(body.velocity, futurePrediction));
      points[0] := camera.Transform(future.x, future.y);
      assert points[..] == TracePoints(l, line[..], body, futurePrediction);
      call := DrawLines(Traces.SlateGray, points[..]);
    }
  }

  /** The entities of the traces, in order. */
  function TraceIds(ts: seq<LineTrace>): seq<Entity> {
    seq(|ts|, i requires 0 <= i < |ts| => ts[i].self)
  }

  /** `(oldCenter * damp + target) / (damp + 1)`, the division written per component. */
  function Smoothed(oldCenter: Vec2, target: Vec2, damp: real): Vec2
    requires damp + 1.0 != 0.0
  {
    var sum := Add(Scale(oldCenter, damp), target);
    Vec2(sum.x / (damp + 1.0), sum.y / (damp + 1.0))
  }

  /** Dividing by `damp + 1` is multiplying by its inverse: the legacy smoothing is the follow step of the later revision. */
  lemma SmoothedIsFollow(oldCenter: Vec2, target: Vec2, dt: real)
    requires dt > 0.0
    ensures Smoothed(oldCenter, target, 1.0 / dt) == Players.Follow(oldCenter, target, dt)
  {
    var damp := 1.0 / dt;
    assert damp > 0.0;
    var sum := Add(Scale(oldCenter, damp), target);
    assert sum.x / (damp + 1.0) == sum.x * (1.0 / (damp + 1.0));
    assert sum.y / (damp + 1.0) == sum.y * (1.0 / (damp + 1.0));
  }

  /** The exhaust's corners on screen, as `Draw` transforms them in place. */
  function ExhaustScreen(l: Lens, toWorld: Vec2 -> Vec2, corners: seq<Vec2>): seq<Vec2>
    requires Usable(l)
  {
    seq(|corners|, i requires 0 <= i < |corners| => Screen(l, toWorld(corners[i])))
  }

  /** The health arc: the box (0, 0, 100, 100), from 0 degrees sweeping health·360. */
  function HealthArc(health: real): CanvasCall {
    DrawArc(Red, Zero, Vec2(100.0, 100.0), 0.0, health * 360.0)
  }

  /**
   * The exhaust polygon, its corners rounded down to pixels, is the closed red
   * triangle the later revision draws segment by segment.
   */
  lemma ExhaustAgrees(l: Lens, toWorld: Vec2 -> Vec2, corners: seq<Vec2>)
    requires Usable(l)
    ensures ClosedEdges(Players.PointsOf(ExhaustScreen(l, toWorld, corners)), Red)
      == Players.ExhaustLines(Cameras.View(l.center, l.size, Vec2(l.width as real, l.height as real)), toWorld, corners)
  {
    var v := Cameras.View(l.center, l.size, Vec2(l.width as real, l.height as real));
    forall i | 0 <= i < |corners|
      ensures Screen(l, toWorld(corners[i])) == Cameras.Project(v, toWorld(corners[i]))
    {
      ProjectAgrees(l.center, l.size, l.width, l.height, toWorld(corners[i]));
    }
    assert Players.PointsOf(ExhaustScreen(l, toWorld, corners))
      == seq(|corners|, i requires 0 <= i < |corners| => PhysicsObjects.ScreenPoint(v, toWorld(corners[i])));
  }

  /** The transform loop of the exhaust: `points[i] = camera.Transform(GetWorldPoint(points[i]))`. */
  method ExhaustToScreen(camera: Camera, points: array<Vec2>, toWorld: Vec2 -> Vec2)
    requires Usable(camera.CurrentLens())
    modifies points
    ensures points[..] == ExhaustScreen(camera.CurrentLens(), toWorld, old(points[..]))
  {
    ghost var l := camera.CurrentLens();
    var i := 0;
    while i < points.Length
      invariant 0 <= i <= points.Length
      invariant forall k :: 0 <= k < i ==> points[k] == Screen(l, toWorld(old(points[k])))
      invariant forall k :: i <= k < points.Length ==> points[k] == old(points[k])
    {
      var vec := toWorld(points[i]);
      points[i] := camera.Transform(vec.x, vec.y);
      i := i + 1;
    }
  }

  class Player {
    const self: Entity
    /** The Farseer polygon, yellow, that the base `Draw` draws. */
    const body: Body
    var traces: Option<seq<LineTrace>>
    var addTrace: bool
    var drawExhaust: real
    var health: real

    /**
     * Health starts at 1; the traces are made by the first `Draw`. The body is the
     * hull triangle in yellow; `proxies` are the broad-phase boxes Farseer gives it.
     */
    constructor(id: Entity, bodyId: nat, s: Players.ShipSettings, trig: Players.Trig, proxies: seq<Box>)
      ensures self == id && body == Body(bodyId, [Fixture(PolygonShape(Players.HullVertices(s, trig)), proxies)], Some(Players.Yellow))
      ensures traces.None? && !addTrace && drawExhaust == 0.0 && health == 1.0
    {
      self := id;
      body := Body(bodyId, [Fixture(PolygonShape(Players.HullVertices(s, trig)), proxies)], Some(Players.Yellow));
      traces := None;
      addTrace := false;
      drawExhaust := 0.0;
      health := 1.0;
    }

    /** `PlayerOnCollision`: health drops by the squared normal impulse over `ShipHealth`. */
    method OnCollision(impulse: real, shipHealth: real)
      requires shipHealth != 0.0
      modifies this
      ensures health == old(health) - Players.Deduction(impulse, shipHealth)
      ensures traces == old(traces) && addTrace == old(addTrace) && drawExhaust == old(drawExhaust)
    {
      var healthDeduction := impulse;
      healthDeduction := healthDeduction * healthDeduction;
      healthDeduction := healthDeduction / shipHealth;
      health := health - healthDeduction;
    }

    /**
     * The start of `Draw`: the first call makes three traces, one per hull vertex,
     * each registered with the camera, and asks the next `Update` to spawn them;
     * later calls leave them be.
     */
    method MakeTraces(camera: Camera, ids: seq<Entity>)
      requires |ids| == 3
      modifies this, camera
      ensures old(traces).Some? ==>
        traces == old(traces) && addTrace == old(addTrace) && camera.subscribers == old(camera.subscribers)
      ensures old(traces).None? ==>
        && traces.Some? && TraceIds(traces.value) == ids && addTrace
        && camera.subscribers == old(camera.subscribers) + [Cameras.ShiftHandler(ids[0]), Cameras.ShiftHandler(ids[1]), Cameras.ShiftHandler(ids[2])]
        && forall i :: 0 <= i < 3 ==>
             var t := traces.value[i];
             fresh(t) && fresh(t.line) && t.vertexIndex == i && t.subscribed == camera
             && t.line.Length == HistoryLength && t.counter == 0.0
      ensures camera.Pose() == old(camera.Pose())
      ensures health == old(health) && drawExhaust == old(drawExhaust)
    {
      if traces.None? {
        var t0 := new LineTrace(camera, ids[0], 0);
        var t1 := new LineTrace(camera, ids[1], 1);
        var t2 := new LineTrace(camera, ids[2], 2);
        traces := Some([t0, t1, t2]);
        addTrace := true;
      }
    }

    /**
     * `Draw`: on the first call, make the traces; then the exhaust polygon when it
     * is lit, the body, and the health arc. `toWorld` is `GetWorldPoint`; an unknown
     * shape on screen stops the drawing with its exception.
     */
    method Draw(camera: Camera, ids: seq<Entity>, s: Players.ShipSettings, trig: Players.Trig,
                toWorld: Vec2 -> Vec2, clip: Clip)
      returns (calls: seq<CanvasCall>, failure: Option<string>)
      requires |ids| == 3 && Usable(camera.CurrentLens())
      modifies this, camera
      ensures old(traces).Some? ==>
        traces == old(traces) && addTrace == old(addTrace) && camera.subscribers == old(camera.subscribers)
      ensures old(traces).None? ==>
        && traces.Some? && TraceIds(traces.value) == ids && addTrace
        && camera.subscribers == old(camera.subscribers) + [Cameras.ShiftHandler(ids[0]), Cameras.ShiftHandler(ids[1]), Cameras.ShiftHandler(ids[2])]
      ensures camera.Pose() == old(camera.Pose())
      ensures health == old(health) && drawExhaust == old(drawExhaust)
      ensures var l := camera.CurrentLens();
        var exhaust := if drawExhaust > 0.0
          then [DrawPolygon(Red, ExhaustScreen(l, toWorld, Players.ExhaustVertices(s, trig, drawExhaust)))] else [];
        var (base, f) := FixtureCalls(body.fixtures, l, toWorld, clip, Pen(body));
        && failure == f
        && calls == exhaust + base + (if f.None? then [HealthArc(health)] else [])
    {
      MakeTraces(camera, ids);
      calls := [];
      if drawExhaust > 0.0 {
        var points := Players.ExhaustCorners(s, trig, drawExhaust);
        ghost var corners := points[..];
        assert corners == Players.ExhaustVertices(s, trig, drawExhaust);
        ExhaustToScreen(camera, points, toWorld);
        calls := [DrawPolygon(Red, points[..])];
      }
      var base;
      base, failure := DrawBody(Some(body), camera, toWorld, clip);
      calls := calls + base;
      if failure.None? {
        calls := calls + [HealthArc(health)];
      }
    }

    /**
     * `Update`: spawn the traces the first `Draw` made; die when health is negative;
     * otherwise apply the controls, move the camera towards `position + 2·velocity`,
     * and, when the camera is more than 100 from the origin, shift the world by the
     * camera centre and broadcast that shift.
     */
    method Update(dt: real, keys: set<int>, s: Players.ShipSettings, joystick: Vec2, motion: Players.Motion,
                  toWorldVector: Vec2 -> Vec2, camera: Camera)
      returns (req: Requests, commands: seq<Players.PhysicsCall>, broadcast: Option<(seq<Cameras.Handler>, Vec2)>)
      requires dt > 0.0
      requires addTrace ==> traces.Some?
      modifies this, camera
      ensures req.spawns == (if old(addTrace) then TraceIds(old(traces).value) else [])
      ensures !addTrace && traces == old(traces) && health == old(health)
      ensures req.deaths == (if old(health) < 0.0 then [self] else [])
      ensures req.move.Move? <==> old(health) >= 0.0
      ensures Track(camera.center, camera.centerVelocity) == Moved(Track(old(camera.center), old(camera.centerVelocity)), req.move)
      ensures req.move.Move? ==> (req.move.shift <==> broadcast.Some?) && (broadcast.Some? ==> broadcast.value.1 == req.move.center)
      ensures camera.subscribers == old(camera.subscribers) && camera.sizeMultiplier == old(camera.sizeMultiplier)
      ensures camera.screenWidth == old(camera.screenWidth) && camera.screenHeight == old(camera.screenHeight)
      ensures old(health) < 0.0 ==>
        commands == [] && broadcast.None? && drawExhaust == old(drawExhaust) && camera.Pose() == old(camera.Pose())
      ensures old(health) >= 0.0 ==>
        var (controls, exhaust) := Players.Controls(keys, s, joystick, toWorldVector);
        var followed := Players.Follow(old(camera.center), Add(motion.position, Scale(motion.velocity, 2.0)), dt);
        && drawExhaust == exhaust
        && camera.centerVelocity == Vec2((followed.x - old(camera.center).x) / dt, (followed.y - old(camera.center).y) / dt)
        && (broadcast.Some? <==> Length2(followed) > Players.MaxCenter2)
        && (broadcast.None? ==> commands == controls && camera.center == followed)
        && (broadcast.Some? ==>
              && commands == controls + [Players.ShiftOrigin(followed)] && camera.center == Zero
              && broadcast.value == (old(camera.subscribers), followed))
        && Length2(camera.center) <= Players.MaxCenter2
    {
      req := NoRequests;
      commands := [];
      broadcast := None;
      if addTrace {
        req := req.(spawns := TraceIds(traces.value));
        addTrace := false;
      }
      if health < 0.0 {
        req := req.(deaths := [self]);
        return;
      }
      var controls, exhaust := Players.Controls(keys, s, joystick, toWorldVector).0, Players.Controls(keys, s, joystick, toWorldVector).1;
      commands := controls;
      drawExhaust := exhaust;
      var damp := 1.0 / dt;
      var target := Add(motion.position, Scale(motion.velocity, 2.0));
      var oldCenter := camera.center;
      SmoothedIsFollow(oldCenter, target, dt);
      camera.center := Smoothed(oldCenter, target, damp);
      camera.centerVelocity := Vec2((camera.center.x - oldCenter.x) / dt, (camera.center.y - oldCenter.y) / dt);
      req := req.(move := Move(camera.center, camera.centerVelocity, Length2(camera.center) > Players.MaxCenter2));
      if Length2(camera.center) > Players.MaxCenter2 {
        commands := commands + [Players.ShiftOrigin(camera.center)];
        var notified, shift := camera.OriginShift();
        broadcast := Some((notified, shift));
      }
    }
  }
}
