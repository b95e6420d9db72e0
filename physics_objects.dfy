/** PhysicsObject.cs: drawing a Farseer body as lines, and removing it from the world on death. */
module PhysicsObjects {
  import opened Wrappers
  import opened Vectors
  import opened Drawing
  import opened Cameras

  /** A fixture's shape, by its runtime type. */
  datatype Shape =
    | PolygonShape(vertices: seq<Vec2>)
    | EdgeShape(vertex1: Vec2, vertex2: Vec2)
    | NullShape
    | OtherShape(typeName: string)

  /**
   * The parts of a Farseer `Body` the drawing reads: its identity in the world,
   * the shapes of its fixtures in order, and its `UserData` when that is a `MyColor`.
   */
  datatype Body = Body(id: nat, fixtures: seq<Shape>, userColor: Option<Color>)

  /** `body.UserData as MyColor ?? _defaultPen` */
  function Pen(body: Body): Color {
    body.userColor.GetOr(White)
  }

  /** A world point on screen: `camera.Transform(p.X, p.Y).Point`. */
  function ScreenPoint(v: View, p: Vec2): Point
    requires Projectable(v)
  {
    PointOf(Project(v, p))
  }

  /** The lines one fixture emits; `toWorld` is `body.GetWorldPoint`. */
  function ShapeLines(shape: Shape, v: View, toWorld: Vec2 -> Vec2, pen: Color): seq<GraphicsCall>
    requires Projectable(v)
  {
    match shape
    case PolygonShape(vs) =>
      ClosedEdges(seq(|vs|, i requires 0 <= i < |vs| => ScreenPoint(v, toWorld(vs[i]))), pen)
    case EdgeShape(a, b) => [LineCall(ScreenPoint(v, toWorld(a)), ScreenPoint(v, toWorld(b)), pen)]
    case _ => []
  }

  /** The message of the exception thrown for a shape that is neither polygon, edge nor null. */
  function UnknownShape(name: string): string {
    "Unknown shape type " + name
  }

  /**
   * What `Draw` emits for the fixtures `fs`, in order, and the exception that stops
   * it at the first fixture of an unknown shape (the lines before it are already drawn).
   */
  function FixtureLines(fs: seq<Shape>, v: View, toWorld: Vec2 -> Vec2, pen: Color): (seq<GraphicsCall>, Option<string>)
    requires Projectable(v)
  {
    if |fs| == 0 then ([], None)
    else
      var (before, failure) := FixtureLines(fs[..|fs| - 1], v, toWorld, pen);
      var last := fs[|fs| - 1];
      if failure.Some? then (before, failure)
      else if last.OtherShape? then (before, Some(UnknownShape(last.typeName)))
      else (before + ShapeLines(last, v, toWorld, pen), None)
  }

  /** `Draw`: nothing for a null body; otherwise every fixture's lines in the body's pen. */
  method Draw(body: Option<Body>, camera: Camera, toWorld: Vec2 -> Vec2) returns (calls: seq<GraphicsCall>, failure: Option<string>)
    requires Projectable(camera.CurrentView())
    ensures body.None? ==> calls == [] && failure.None?
    ensures body.Some? ==> (calls, failure) == FixtureLines(body.value.fixtures, camera.CurrentView(), toWorld, Pen(body.value))
  {
    calls, failure := [], None;
    if body.None? {
      return;
    }
    var b := body.value;
    var pen := Pen(b);
    var v := camera.CurrentView();
    var f := 0;
    while f < |b.fixtures|
      invariant 0 <= f <= |b.fixtures|
      invariant failure.None? && (calls, failure) == FixtureLines(b.fixtures[..f], v, toWorld, pen)
    {
      ghost var prefix := b.fixtures[..f + 1];
      assert prefix[..f] == b.fixtures[..f] && prefix[f] == b.fixtures[f];
      var shape := b.fixtures[f];
      if shape.OtherShape? {
        failure := Some(UnknownShape(shape.typeName));
        assert FixtureLines(prefix, v, toWorld, pen) == (calls, failure);
        FailureSticks(b.fixtures, f + 1, v, toWorld, pen);
        return;
      }
      var lines := DrawFixture(shape, camera, toWorld, pen);
      calls := calls + lines;
      assert FixtureLines(prefix, v, toWorld, pen) == (calls, None);
      f := f + 1;
    }
    assert b.fixtures[..|b.fixtures|] == b.fixtures;
  }

  /** Once a fixture has thrown, the later fixtures are not drawn. */
  lemma {:induction false} FailureSticks(fs: seq<Shape>, k: nat, v: View, toWorld: Vec2 -> Vec2, pen: Color)
    requires Projectable(v) && k <= |fs|
    requires FixtureLines(fs[..k], v, toWorld, pen).1.Some?
    ensures FixtureLines(fs, v, toWorld, pen) == FixtureLines(fs[..k], v, toWorld, pen)
  {
    if k < |fs| {
      assert fs[..|fs| - 1][..k] == fs[..k];
      FailureSticks(fs[..|fs| - 1], k, v, toWorld, pen);
    } else {
      assert fs[..k] == fs;
    }
  }

  /** One polygon, edge or null fixture. */
  method DrawFixture(shape: Shape, camera: Camera, toWorld: Vec2 -> Vec2, pen: Color) returns (lines: seq<GraphicsCall>)
    requires Projectable(camera.CurrentView()) && !shape.OtherShape?
    ensures lines == ShapeLines(shape, camera.CurrentView(), toWorld, pen)
  {
    match shape {
      case PolygonShape(vs) =>
        lines := PolygonLines(vs, camera, toWorld, pen);
      case EdgeShape(a, c) =>
        var p1 := toWorld(a);
        var p2 := toWorld(c);
        var s1 := camera.Transform(p1.x, p1.y);
        var s2 := camera.Transform(p2.x, p2.y);
        lines := [LineCall(PointOf(s1), PointOf(s2), pen)];
      case NullShape =>
        lines := [];
    }
  }

  /** The inner loop: segment i joins vertex i to vertex (i + 1) mod n. */
  method PolygonLines(vs: seq<Vec2>, camera: Camera, toWorld: Vec2 -> Vec2, pen: Color) returns (lines: seq<GraphicsCall>)
    requires Projectable(camera.CurrentView())
    ensures lines == ShapeLines(PolygonShape(vs), camera.CurrentView(), toWorld, pen)
  {
    ghost var v := camera.CurrentView();
    ghost var pts := seq(|vs|, i requires 0 <= i < |vs| => ScreenPoint(v, toWorld(vs[i])));
    lines := [];
    var i := 0;
    while i < |vs|
      invariant 0 <= i <= |vs|
      invariant lines == ClosedEdges(pts, pen)[..i]
    {
      var vert1 := toWorld(vs[i]);
      var vert2 := toWorld(vs[(i + 1) % |vs|]);
      var s1 := camera.Transform(vert1.x, vert1.y);
      var s2 := camera.Transform(vert2.x, vert2.y);
      lines := lines + [LineCall(PointOf(s1), PointOf(s2), pen)];
      assert ClosedEdges(pts, pen)[..i + 1] == ClosedEdges(pts, pen)[..i] + [ClosedEdges(pts, pen)[i]];
      i := i + 1;
    }
  }

  /**
   * The per-fixture contract of `Draw`: an n-vertex polygon gives n segments closing
   * a loop, an edge one segment from Vertex1 to Vertex2, a null shape nothing.
   */
  lemma ShapeLinesShape(shape: Shape, v: View, toWorld: Vec2 -> Vec2, pen: Color)
    requires Projectable(v) && !shape.OtherShape?
    ensures var r := ShapeLines(shape, v, toWorld, pen);
      && (shape.PolygonShape? ==>
            && |r| == |shape.vertices|
            && (|r| > 0 ==> r[|r| - 1].p2 == r[0].p1)
            && (forall i :: 0 <= i < |r| - 1 ==> r[i].p2 == r[i + 1].p1)
            && (forall i :: 0 <= i < |r| ==> r[i].p1 == ScreenPoint(v, toWorld(shape.vertices[i]))))
      && (shape.EdgeShape? ==> r == [LineCall(ScreenPoint(v, toWorld(shape.vertex1)), ScreenPoint(v, toWorld(shape.vertex2)), pen)])
      && (shape.NullShape? ==> r == [])
      && (forall i :: 0 <= i < |r| ==> r[i].LineCall? && r[i].color == pen)
  {
    if shape.PolygonShape? && |shape.vertices| > 0 {
      var vs := shape.vertices;
      ClosedEdgesLoop(seq(|vs|, i requires 0 <= i < |vs| => ScreenPoint(v, toWorld(vs[i]))), pen);
    }
  }

  /** A body whose fixtures are all polygons, edges or null shapes is drawn without an exception. */
  lemma {:induction false} KnownShapesDrawFully(fs: seq<Shape>, v: View, toWorld: Vec2 -> Vec2, pen: Color)
    requires Projectable(v)
    requires forall i :: 0 <= i < |fs| ==> !fs[i].OtherShape?
    ensures FixtureLines(fs, v, toWorld, pen).1.None?
  {
    if |fs| > 0 {
      KnownShapesDrawFully(fs[..|fs| - 1], v, toWorld, pen);
    }
  }

  /** `OnDie`: the body, when there is one, leaves the physics world (the set of body ids in it). */
  function WorldAfterDeath(world: set<nat>, body: Option<Body>): (w: set<nat>)
    ensures body.None? ==> w == world
    ensures body.Some? ==> body.value.id !in w && w + {body.value.id} >= world && w <= world
  {
    if body.Some? then world - {body.value.id} else world
  }
}
