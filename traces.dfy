/** PlayerLineTrace.cs: the fading trail behind one corner of the ship. */
module Traces {
  import opened Wrappers
  import opened Vectors
  import opened Numerics
  import opened Drawing
  import opened Entities
  import opened Cameras

  const NumPoints: nat := 10
  /** `_pointFrequency`, the float 0.25f (exact in binary). */
  const PointFrequency: real := 0.25
  const SlateGray: Color := Color(112, 128, 144)

  /** What the trace reads of the player's body: `GetPos()` (the traced vertex in world space, or the body position when the body has no fixtures) and the linear velocity. */
  datatype TracedBody = TracedBody(pos: Vec2, velocity: Vec2)

  /** Every point moved by `-shift`. */
  function Rebased(s: seq<Vec2>, shift: Vec2): seq<Vec2> {
    seq(|s|, i requires 0 <= i < |s| => Sub(s[i], shift))
  }

  /** The history moved one slot toward the end, the last point dropped; slot 0 keeps its old value. */
  function Shifted(s: seq<Vec2>): seq<Vec2>
    requires |s| > 0
  {
    [s[0]] + s[..|s| - 1]
  }

  /** The history after a push of `p`. */
  function Pushed(s: seq<Vec2>, p: Vec2): seq<Vec2>
    requires |s| > 0
  {
    [p] + s[..|s| - 1]
  }

  /** Two rebases add up, and a rebase by the opposite shift undoes one. */
  lemma RebaseComposes(s: seq<Vec2>, a: Vec2, b: Vec2)
    ensures Rebased(Rebased(s, a), b) == Rebased(s, Add(a, b))
    ensures Rebased(Rebased(s, a), Neg(a)) == s
  {
  }

  /** A push keeps the length, puts `p` in front and moves every other point one slot later. */
  lemma PushedShape(s: seq<Vec2>, p: Vec2)
    requires |s| > 0
    ensures |Pushed(s, p)| == |s| && Pushed(s, p)[0] == p
    ensures forall i :: 1 <= i < |s| ==> Pushed(s, p)[i] == s[i - 1]
  {
  }

  /** Rebasing and pushing a rebased point commute: the history stays consistent under an origin shift. */
  lemma RebasePushCommute(s: seq<Vec2>, p: Vec2, shift: Vec2)
    requires |s| > 0
    ensures Rebased(Pushed(s, p), shift) == Pushed(Rebased(s, shift), Sub(p, shift))
  {
  }

  /** The counter reduced on a push lies in [0, 0.25). */
  lemma CounterModBounds(c: real)
    requires c >= 0.0
    ensures 0.0 <= FMod(c, PointFrequency) < PointFrequency
  {
  }

  /** The screen points `Draw` joins: future, current, then the ten history points. */
  function TracePoints(v: View, line: seq<Vec2>, body: TracedBody, futurePrediction: real): seq<Point>
    requires Projectable(v)
  {
    var future := Add(body.pos, Scale(body.velocity, futurePrediction));
    [PointOf(Project(v, future)), PointOf(Project(v, body.pos))]
      + seq(|line|, i requires 0 <= i < |line| => PointOf(Project(v, line[i])))
  }

  /** A point array filled as `Draw` fills it holds `TracePoints`. */
  lemma TracePointsAre(ps: seq<Point>, v: View, line: seq<Vec2>, body: TracedBody, futurePrediction: real)
    requires Projectable(v) && |ps| == |line| + 2
    requires ps[0] == PointOf(Project(v, Add(body.pos, Scale(body.velocity, futurePrediction))))
    requires ps[1] == PointOf(Project(v, body.pos))
    requires forall j :: 0 <= j < |line| ==> ps[j + 2] == PointOf(Project(v, line[j]))
    ensures ps == TracePoints(v, line, body, futurePrediction)
  {
  }

  /** One more segment of a polyline. */
  lemma PolylineStep(ps: seq<Point>, k: nat, color: Color)
    requires k + 1 < |ps|
    ensures Polyline(ps[..k + 2], color) == Polyline(ps[..k + 1], color) + [LineCall(ps[k], ps[k + 1], color)]
  {
    assert ps[..k + 2][..k + 1] == ps[..k + 1];
  }

  lemma PrefixWhole(ps: seq<Point>)
    ensures ps[..|ps|] == ps
  {
  }

  /** The rebasing loop of `OnOriginShift`: `line[i] -= shift` for every slot. */
  method RebaseInPlace(line: array<Vec2>, shift: Vec2)
    modifies line
    ensures line[..] == Rebased(old(line[..]), shift)
  {
    var i := 0;
    while i < line.Length
      invariant 0 <= i <= line.Length
      invariant line[..i] == Rebased(old(line[..]), shift)[..i]
      invariant line[i..] == old(line[..])[i..]
    {
      line[i] := Sub(line[i], shift);
      i := i + 1;
    }
  }

  /** The history loop of `Update`: `for (i = Length - 2; i >= 0; i--) line[i + 1] = line[i];` */
  method ShiftHistory(line: array<Vec2>)
    requires line.Length > 0
    modifies line
    ensures line[..] == Shifted(old(line[..]))
  {
    var i := line.Length - 2;
    while i >= 0
      invariant -1 <= i <= line.Length - 2
      invariant forall j :: 0 <= j < i + 2 ==> line[j] == old(line[j])
      invariant forall j :: i + 2 <= j < line.Length ==> line[j] == old(line[j - 1])
    {
      line[i + 1] := line[i];
      i := i - 1;
    }
    ghost var s := old(line[..]);
    assert forall j :: 0 <= j < line.Length ==> line[..][j] == Shifted(s)[j];
  }

  class PlayerLineTrace {
    const self: Entity
    const subscribed: Camera
    const vertexIndex: int
    const line: array<Vec2>
    var counter: real

    /** Registers `OnOriginShift` and allocates a zeroed 10-point history. */
    constructor(camera: Camera, id: Entity, vertexIndex: int)
      modifies camera
      ensures self == id && subscribed == camera && this.vertexIndex == vertexIndex
      ensures camera.subscribers == old(camera.subscribers) + [ShiftHandler(id)]
      ensures camera.Pose() == old(camera.Pose())
      ensures fresh(line) && line.Length == NumPoints && counter == 0.0
      ensures forall i :: 0 <= i < line.Length ==> line[i] == Zero
    {
      self := id;
      this.vertexIndex := vertexIndex;
      subscribed := camera;
      camera.Subscribe(ShiftHandler(id));
      line := new Vec2[NumPoints](_ => Zero);
      counter := 0.0;
    }

    /** Subtracts the shift from every buffered point. */
    method OnOriginShift(shift: Vec2)
      modifies line
      ensures line[..] == Rebased(old(line[..]), shift)
    {
      RebaseInPlace(line, shift);
    }

    /** Unregisters the handler the constructor registered. */
    method OnDie()
      modifies subscribed
      ensures subscribed.subscribers == RemoveLast(old(subscribed.subscribers), ShiftHandler(self))
      ensures subscribed.Pose() == old(subscribed.Pose())
    {
      subscribed.Unsubscribe(ShiftHandler(self));
    }

    /**
     * Adds `dt` to the counter; past 0.25 the counter is reduced mod 0.25, the
     * history moves one slot and slot 0 takes the current position. `GetPos`
     * throws on a null body, after the history has already moved.
     */
    method Update(dt: real, body: Option<TracedBody>) returns (r: Result<(), string>)
      requires line.Length == NumPoints
      modifies this, line
      ensures var c := old(counter) + dt;
        if c > PointFrequency then
          && counter == FMod(c, PointFrequency)
          && (body.Some? ==> r.Ok? && line[..] == Pushed(old(line[..]), body.value.pos))
          && (body.None? ==> r.Err? && line[..] == Shifted(old(line[..])))
        else
          counter == c && line[..] == old(line[..]) && r.Ok?
      ensures 0.0 <= old(counter) <= PointFrequency && dt >= 0.0 ==> 0.0 <= counter <= PointFrequency
    {
      counter := counter + dt;
      r := Ok(());
      if counter > PointFrequency {
        CounterModBounds(counter);
        counter := FMod(counter, PointFrequency);
        ShiftHistory(line);
        if body.None? {
          r := Err("Player.Body should be non-null");
          return;
        }
        line[0] := body.value.pos;
        assert line[..] == [line[0]] + line[1..];
      }
    }

    /** Joins future → current → history[0] → … → history[9] with 11 slate-grey lines. */
    method Draw(camera: Camera, body: Option<TracedBody>, futurePrediction: real) returns (r: Result<seq<GraphicsCall>, string>)
      requires Projectable(camera.CurrentView())
      ensures body.None? ==> r.Err?
      ensures body.Some? ==> r == Ok(Polyline(TracePoints(camera.CurrentView(), line[..], body.value, futurePrediction), SlateGray))
      ensures r.Ok? ==> |r.value| == line.Length + 1
    {
      var v := camera.CurrentView();
      var points := new Point[line.Length + 2](_ => Point(0, 0));
      FillHistory(camera, points);
      if body.None? {
        return Err("Player.Body should be non-null");
      }
      var current := body.value.pos;
      points[1] := PointOf(camera.Transform(current.x, current.y));
      var future := Add(current, Scale(body.value.velocity, futurePrediction));
      points[0] := PointOf(camera.Transform(future.x, future.y));
      TracePointsAre(points[..], v, line[..], body.value, futurePrediction);
      var calls := Joined(points, SlateGray);
      r := Ok(calls);
    }

    /** The history loop of `Draw`: `points[i + 2] = camera.Transform(line[i])`. */
    method FillHistory(camera: Camera, points: array<Point>)
      requires Projectable(camera.CurrentView()) && points.Length == line.Length + 2
      modifies points
      ensures forall j :: 0 <= j < line.Length ==> points[j + 2] == PointOf(Project(camera.CurrentView(), line[j]))
    {
      var i := 0;
      while i < line.Length
        invariant 0 <= i <= line.Length
        invariant forall j :: 0 <= j < i ==> points[j + 2] == PointOf(Project(camera.CurrentView(), line[j]))
      {
        var point := line[i];
        points[i + 2] := PointOf(camera.Transform(point.x, point.y));
        i := i + 1;
      }
    }
  }

  /** `DrawLines`: one segment between each pair of consecutive points. */
  method Joined(points: array<Point>, color: Color) returns (calls: seq<GraphicsCall>)
    requires points.Length >= 1
    ensures calls == Polyline(points[..], color)
  {
    ghost var ps := points[..];
    calls := [];
    var k := 0;
    while k < points.Length - 1
      invariant 0 <= k <= points.Length - 1
      invariant calls == Polyline(ps[..k + 1], color)
    {
      PolylineStep(ps, k, color);
      calls := calls + [LineCall(points[k], points[k + 1], color)];
      k := k + 1;
    }
    PrefixWhole(ps);
  }
}
