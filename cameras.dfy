/** Camera.cs: the view centre with its origin-shift event, and the world-to-screen mapping. */
module Cameras {
  import opened Vectors
  import opened Entities

  /** A delegate in the `OnOriginShift` invocation list, identified by the object that registered it. */
  datatype Handler = ShiftHandler(owner: Entity)

  /** `event -= h`: removes the last occurrence of `h`, if there is one. */
  function RemoveLast(s: seq<Handler>, h: Handler): (r: seq<Handler>)
    ensures h in s ==> |r| == |s| - 1 && multiset(r) == multiset(s) - multiset{h}
    ensures h !in s ==> r == s
  {
    if |s| == 0 then []
    else
      assert s == s[..|s| - 1] + [s[|s| - 1]];
      if s[|s| - 1] == h then s[..|s| - 1]
      else RemoveLast(s[..|s| - 1], h) + [s[|s| - 1]]
  }

  class Camera {
    var centerVelocity: Vec2
    var center: Vec2
    const fixedSize: real
    var sizeMultiplier: real
    var screenScale: Vec2
    /** The `OnOriginShift` invocation list, in subscription order. */
    var subscribers: seq<Handler>

    constructor(screenSize: real)
      ensures center == Zero && sizeMultiplier == 1.0 && fixedSize == screenSize
      ensures Size() == screenSize
      ensures centerVelocity == Zero && screenScale == Zero && subscribers == []
    {
      center := Zero;
      sizeMultiplier := 1.0;
      fixedSize := screenSize;
      centerVelocity := Zero;
      screenScale := Zero;
      subscribers := [];
    }

    function Size(): real
      reads this
    {
      fixedSize * sizeMultiplier
    }

    /** Every field except the invocation list. */
    function Pose(): (Vec2, Vec2, real, Vec2)
      reads this
    {
      (center, centerVelocity, sizeMultiplier, screenScale)
    }

    function CurrentView(): View
      reads this
    {
      View(center, Size(), screenScale)
    }

    /** `OnOriginShift += h` */
    method Subscribe(h: Handler)
      modifies this
      ensures subscribers == old(subscribers) + [h]
      ensures center == old(center) && centerVelocity == old(centerVelocity)
      ensures sizeMultiplier == old(sizeMultiplier) && screenScale == old(screenScale)
    {
      subscribers := subscribers + [h];
    }

    /** `OnOriginShift -= h` */
    method Unsubscribe(h: Handler)
      modifies this
      ensures subscribers == RemoveLast(old(subscribers), h)
      ensures center == old(center) && centerVelocity == old(centerVelocity)
      ensures sizeMultiplier == old(sizeMultiplier) && screenScale == old(screenScale)
    {
      subscribers := RemoveLast(subscribers, h);
    }

    /**
     * Invokes every subscriber, in order, with the pre-shift centre, then zeroes the
     * centre. The invocations are returned: each subscriber's handler body is a
     * method of its own class (`PlayerLineTrace.OnOriginShift`,
     * `DistanceTracker.OnOriginShift`).
     */
    method OriginShift() returns (notified: seq<Handler>, shift: Vec2)
      modifies this
      ensures notified == old(subscribers) && shift == old(center)
      ensures center == Zero
      ensures subscribers == old(subscribers) && centerVelocity == old(centerVelocity)
      ensures sizeMultiplier == old(sizeMultiplier) && screenScale == old(screenScale)
    {
      notified := subscribers;
      shift := center;
      center := Zero;
    }

    /** Zeroes the centre and drops every subscriber. */
    method ResetOriginShift()
      modifies this
      ensures center == Zero && subscribers == []
      ensures centerVelocity == old(centerVelocity)
      ensures sizeMultiplier == old(sizeMultiplier) && screenScale == old(screenScale)
    {
      center := Zero;
      subscribers := [];
    }

    function Transform(x: real, y: real): Vec2
      reads this
      requires Size() != 0.0 && screenScale.x != 0.0
    {
      Project(CurrentView(), Vec2(x, y))
    }

    function Scale(value: real): real
      reads this
      requires Size() != 0.0
    {
      ScaleOf(CurrentView(), value)
    }
  }

  /** The camera fields the mapping reads: centre, `Size` and `ScreenScale`. */
  datatype View = View(center: Vec2, size: real, screen: Vec2)

  predicate Projectable(v: View) {
    v.size != 0.0 && v.screen.x != 0.0
  }

  /** `Transform`: ((p − Center)·(1/Size)·0.5 + (0.5, SY/(2·SX)))·SX */
  function Project(v: View, p: Vec2): Vec2
    requires Projectable(v)
  {
    var point := Scale(Sub(p, v.center), 1.0 / v.size);
    Scale(Add(Scale(point, 0.5), Vec2(0.5, v.screen.y / (2.0 * v.screen.x))), v.screen.x)
  }

  /** `Scale`: value / Size · SX / 2 */
  function ScaleOf(v: View, value: real): real
    requires v.size != 0.0
  {
    value / v.size * v.screen.x / 2.0
  }

  /** Moving the centre and the point by the same vector leaves the screen point where it was. */
  lemma TranslationInvariant(v: View, p: Vec2, s: Vec2)
    requires Projectable(v)
    ensures Project(View(Add(v.center, s), v.size, v.screen), Add(p, s)) == Project(v, p)
  {
    assert Sub(Add(p, s), Add(v.center, s)) == Sub(p, v.center);
  }

  /** The centre of the view lands on the middle of the screen. */
  lemma CenterIsScreenMiddle(v: View)
    requires Projectable(v)
    ensures Project(v, v.center) == Vec2(v.screen.x / 2.0, v.screen.y / 2.0)
  {
    var sx := v.screen.x;
    assert Sub(v.center, v.center) == Zero;
    assert v.screen.y / (2.0 * sx) * sx == v.screen.y / 2.0;
  }

  /** `Scale(d)` is the horizontal screen distance between the centre and a point d further right. */
  lemma ScaleIsHorizontalDisplacement(v: View, d: real)
    requires Projectable(v)
    ensures Project(v, Add(v.center, Vec2(d, 0.0))).x - Project(v, v.center).x == ScaleOf(v, d)
  {
    var sx := v.screen.x;
    assert Sub(Add(v.center, Vec2(d, 0.0)), v.center) == Vec2(d, 0.0);
    assert Sub(v.center, v.center) == Zero;
    assert (d * (1.0 / v.size) * 0.5 + 0.5) * sx - 0.5 * sx == d / v.size * sx / 2.0;
  }
}
