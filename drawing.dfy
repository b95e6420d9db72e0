/** The calls objects make on `Graphics` while drawing, and the two segment patterns they use. */
module Drawing {
  import opened Vectors

  newtype byte = x: int | 0 <= x < 256

  /** `MyColor` and the `r, g, b` byte triples handed to `Graphics`. */
  datatype Color = Color(r: byte, g: byte, b: byte)

  const White: Color := Color(255, 255, 255)
  const Red: Color := Color(255, 0, 0)
  const Black: Color := Color(0, 0, 0)

  /** A public drawing call on `Graphics`: `Line(p1, p2, r, g, b)` or `Arc(center, radius, start, amount, r, g, b)`. */
  datatype GraphicsCall =
    | LineCall(p1: Point, p2: Point, color: Color)
    | ArcCall(center: Vec2, radius: real, radStart: real, radAmount: real, color: Color)

  /** Segments between consecutive points: `points[i] → points[i + 1]`. */
  function Polyline(points: seq<Point>, color: Color): (r: seq<GraphicsCall>)
    ensures |points| > 0 ==> |r| == |points| - 1
    ensures |points| == 0 ==> r == []
  {
    if |points| <= 1 then []
    else Polyline(points[..|points| - 1], color) + [LineCall(points[|points| - 2], points[|points| - 1], color)]
  }

  /** Segments `points[i] → points[(i + 1) % n]`: a closed loop of n segments. */
  function ClosedEdges(points: seq<Point>, color: Color): (r: seq<GraphicsCall>)
    ensures |r| == |points|
  {
    seq(|points|, i requires 0 <= i < |points| => LineCall(points[i], points[(i + 1) % |points|], color))
  }

  /** A polyline is one chain: each segment starts where the previous one ended, from the first point to the last. */
  lemma {:induction false} PolylineChained(points: seq<Point>, color: Color)
    requires |points| >= 2
    ensures var r := Polyline(points, color);
      && (forall i :: 0 <= i < |r| ==> r[i] == LineCall(points[i], points[i + 1], color))
  {
    if |points| > 2 {
      PolylineChained(points[..|points| - 1], color);
    }
  }

  /** The closed edges form one loop: each segment starts where the previous one ended, and the last ends at the first point. */
  lemma ClosedEdgesLoop(points: seq<Point>, color: Color)
    requires |points| >= 1
    ensures var r := ClosedEdges(points, color);
      && (forall i :: 0 <= i < |r| - 1 ==> r[i].p2 == r[i + 1].p1)
      && r[|r| - 1].p2 == r[0].p1
  {
    var n := |points|;
    var r := ClosedEdges(points, color);
    forall i | 0 <= i < n - 1
      ensures r[i].p2 == r[i + 1].p1
    {
      ModBelow(i + 1, n);
    }
    ModSelf(n);
  }

  lemma ModBelow(a: int, n: int)
    requires 0 <= a < n
    ensures a % n == a
  {
  }

  lemma ModSelf(n: int)
    requires n > 0
    ensures n % n == 0
  {
  }
}
