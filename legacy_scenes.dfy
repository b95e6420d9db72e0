/**
 * Spacerunner3/Scene.cs, the earlier revision: the registry whose tick can skip
 * the objects' updates, its camera, and the distance tracker.
 */
module LegacyScenes {
  import opened Wrappers
  import opened Vectors
  import opened Entities
  import Cameras
  import Scenes
  import Distances

  /**
   * `Transform` over the fields it reads: the point relative to `Center`, divided
   * by `Size`, halved, moved by (0.5, H/(2·W)) and scaled by W, where W and H are
   * the integer width and height of `ScreenScale`.
   */
  function Project(center: Vec2, size: real, width: int, height: int, p: Vec2): Vec2
    requires size != 0.0 && width != 0
  {
    var point := Sub(p, center);
    var scaled := Vec2(point.x / size, point.y / size);
    var w := width as real;
    Vec2((scaled.x * 0.5 + 0.5) * w, (scaled.y * 0.5 + height as real / (2.0 * w)) * w)
  }

  /** The earlier mapping is the one the current `Camera.Transform` computes, with the screen size as a vector. */
  lemma ProjectAgrees(center: Vec2, size: real, width: int, height: int, p: Vec2)
    requires size != 0.0 && width != 0
    ensures Project(center, size, width, height, p)
      == Cameras.Project(Cameras.View(center, size, Vec2(width as real, height as real)), p)
  {
    var d := Sub(p, center);
    assert d.x / size == d.x * (1.0 / size);
    assert d.y / size == d.y * (1.0 / size);
  }

  /** The camera centre lands on the middle of the screen, (W/2, H/2). */
  lemma CenterOnMiddle(center: Vec2, size: real, width: int, height: int)
    requires size != 0.0 && width != 0
    ensures Project(center, size, width, height, center) == Vec2(width as real / 2.0, height as real / 2.0)
  {
    ProjectAgrees(center, size, width, height, center);
    Cameras.CenterIsScreenMiddle(Cameras.View(center, size, Vec2(width as real, height as real)));
  }

  /** Moving the centre and the point by the same vector leaves the screen point where it was. */
  lemma ProjectTranslationInvariant(center: Vec2, size: real, width: int, height: int, p: Vec2, s: Vec2)
    requires size != 0.0 && width != 0
    ensures Project(Add(center, s), size, width, height, Add(p, s)) == Project(center, size, width, height, p)
  {
    assert Sub(Add(p, s), Add(center, s)) == Sub(p, center);
  }

  /** The camera fields `Transform` reads. */
  datatype Lens = Lens(center: Vec2, size: real, width: int, height: int)

  /** A lens `Transform` can use without dividing by zero. */
  predicate Usable(l: Lens) {
    l.size != 0.0 && l.width != 0
  }

  /** `Transform` through a lens. */
  function Screen(l: Lens, p: Vec2): Vec2
    requires Usable(l)
  {
    Project(l.center, l.size, l.width, l.height, p)
  }

  /** Moving the lens and the point by the same vector leaves the screen point where it was. */
  lemma ScreenTranslationInvariant(l: Lens, p: Vec2, s: Vec2)
    requires Usable(l)
    ensures Screen(Lens(Add(l.center, s), l.size, l.width, l.height), Add(p, s)) == Screen(l, p)
  {
    ProjectTranslationInvariant(l.center, l.size, l.width, l.height, p, s);
  }

  class Camera {
    var centerVelocity: Vec2
    var center: Vec2
    const fixedSize: real
    var sizeMultiplier: real
    /** `ScreenScale`, a `System.Drawing.Size`: integer width and height. */
    var screenWidth: int
    var screenHeight: int
    /** The `OnOriginShift` invocation list, in subscription order. */
    var subscribers: seq<Cameras.Handler>

    constructor(screenSize: real)
      ensures center == Zero && sizeMultiplier == 1.0 && fixedSize == screenSize && Size() == screenSize
      ensures centerVelocity == Zero && screenWidth == 0 && screenHeight == 0 && subscribers == []
    {
      center := Zero;
      sizeMultiplier := 1.0;
      fixedSize := screenSize;
      centerVelocity := Zero;
      screenWidth := 0;
      screenHeight := 0;
      subscribers := [];
    }

    function Size(): real
      reads this
    {
      fixedSize * sizeMultiplier
    }

    function CurrentLens(): Lens
      reads this
    {
      Lens(center, Size(), screenWidth, screenHeight)
    }

    /** Every field except the invocation list. */
    function Pose(): (Vec2, Vec2, real, int, int)
      reads this
    {
      (center, centerVelocity, sizeMultiplier, screenWidth, screenHeight)
    }

    /** `OnOriginShift += h` */
    method Subscribe(h: Cameras.Handler)
      modifies this
      ensures subscribers == old(subscribers) + [h] && Pose() == old(Pose())
    {
      subscribers := subscribers + [h];
    }

    /** `OnOriginShift -= h` */
    method Unsubscribe(h: Cameras.Handler)
      modifies this
      ensures subscribers == Cameras.RemoveLast(old(subscribers), h) && Pose() == old(Pose())
    {
      subscribers := Cameras.RemoveLast(subscribers, h);
    }

    /**
     * Invokes every subscriber, in order, with the pre-shift centre, then zeroes
     * the centre; the invocations are returned for the subscribers' own methods.
     */
    method OriginShift() returns (notified: seq<Cameras.Handler>, shift: Vec2)
      modifies this
      ensures notified == old(subscribers) && shift == old(center)
      ensures center == Zero && subscribers == old(subscribers)
      ensures centerVelocity == old(centerVelocity) && sizeMultiplier == old(sizeMultiplier)
      ensures screenWidth == old(screenWidth) && screenHeight == old(screenHeight)
    {
      notified := subscribers;
      shift := center;
      center := Zero;
    }

    /** Zeroes the centre and drops every subscriber. */
    method ResetOriginShift()
      modifies this
      ensures center == Zero && subscribers == []
      ensures centerVelocity == old(centerVelocity) && sizeMultiplier == old(sizeMultiplier)
      ensures screenWidth == old(screenWidth) && screenHeight == old(screenHeight)
    {
      center := Zero;
      subscribers := [];
    }

    /** `Transform(x, y)`. */
    method Transform(x: real, y: real) returns (p: Vec2)
      requires Usable(CurrentLens())
      ensures p == Screen(CurrentLens(), Vec2(x, y))
    {
      var point := Sub(Vec2(x, y), center);
      point := Vec2(point.x / Size(), point.y / Size());
      var w := screenWidth as real;
      point := Vec2((point.x * 0.5 + 0.5) * w, (point.y * 0.5 + screenHeight as real / (2.0 * w)) * w);
      p := point;
    }
  }

  /**
   * The effect of the updates of `live[..n]`, in call order, from the camera
   * fields `t0`: each object sees the camera as the objects before it left it.
   */
  function Pass(beh: Behaviour, live: seq<Entity>, dt: real, t0: Track, n: nat): PassResult
    requires n <= |live|
  {
    if n == 0 then PassResult([], [], t0, [])
    else
      var before := Pass(beh, live, dt, t0, n - 1);
      Then(before, beh(live[n - 1], live, dt, before.track))
  }

  /** A pass's requests gather every updated object's own requests, in order. */
  lemma {:induction false} PassGathers(beh: Behaviour, live: seq<Entity>, dt: real, t0: Track, n: nat, j: nat)
    requires j < n <= |live|
    ensures var r := beh(live[j], live, dt, Pass(beh, live, dt, t0, j).track);
      && multiset(r.spawns) <= multiset(Pass(beh, live, dt, t0, n).spawns)
      && multiset(r.deaths) <= multiset(Pass(beh, live, dt, t0, n).deaths)
  {
    var p := Pass(beh, live, dt, t0, n - 1);
    var r := beh(live[n - 1], live, dt, p.track);
    assert Pass(beh, live, dt, t0, n).spawns == p.spawns + r.spawns;
    assert Pass(beh, live, dt, t0, n).deaths == p.deaths + r.deaths;
    assert multiset(p.spawns + r.spawns) == multiset(p.spawns) + multiset(r.spawns);
    assert multiset(p.deaths + r.deaths) == multiset(p.deaths) + multiset(r.deaths);
    if j < n - 1 {
      PassGathers(beh, live, dt, t0, n - 1, j);
    }
  }

  /** One more update of a pass. */
  lemma PassStep(beh: Behaviour, live: seq<Entity>, dt: real, t0: Track, i: nat)
    requires i < |live|
    ensures var p := Pass(beh, live, dt, t0, i);
      var r := beh(live[i], live, dt, p.track);
      && Pass(beh, live, dt, t0, i + 1) == Then(p, r)
  {
  }

  class Scene {
    const camera: Camera
    var objects: seq<Entity>
    var toSpawn: seq<Entity>
    var toDie: seq<Entity>
    var pressedKeys: set<int>

    constructor(screenSize: real)
      ensures fresh(camera) && camera.center == Zero && camera.Size() == screenSize && camera.subscribers == []
      ensures objects == [] && toSpawn == [] && toDie == [] && pressedKeys == {}
    {
      camera := new Camera(screenSize);
      objects := [];
      toSpawn := [];
      toDie := [];
      pressedKeys := {};
    }

    /** `Drawables`: the objects that are `IDrawable`, in list order. */
    function Drawables(): (r: seq<Entity>)
      reads this
      ensures forall x :: x in r <==> x in objects && IsDrawable(x)
    {
      Scenes.Drawable(objects)
    }

    method Die(e: Entity)
      modifies this
      ensures toDie == old(toDie) + [e]
      ensures objects == old(objects) && toSpawn == old(toSpawn) && pressedKeys == old(pressedKeys)
    {
      toDie := toDie + [e];
    }

    method Spawn(e: Entity)
      modifies this
      ensures toSpawn == old(toSpawn) + [e]
      ensures objects == old(objects) && toDie == old(toDie) && pressedKeys == old(pressedKeys)
    {
      toSpawn := toSpawn + [e];
    }

    /**
     * One tick. Admits the spawn queue; when `physics` holds, calls `Update` on every
     * object of the resulting list (`updated`, in call order), otherwise on none;
     * then removes one occurrence per death entry and runs its `OnDie` (`notified`).
     * The updates move the camera as they ask; `shifts` are the vectors of the
     * origin shifts they caused, each handed to every handler of the invocation
     * list, which the updates leave as it was.
     */
    method Update(dt: real, physics: bool, beh: Behaviour)
      returns (updated: seq<Entity>, shifts: seq<Vec2>, notified: seq<Entity>)
      modifies this, camera
      ensures updated == (if physics then old(objects) + old(toSpawn) else [])
      ensures var p := Pass(beh, updated, dt, Track(old(camera.center), old(camera.centerVelocity)), |updated|);
        && toSpawn == p.spawns
        && notified == old(toDie) + p.deaths
        && camera.center == p.track.center && camera.centerVelocity == p.track.velocity
        && shifts == p.shifts
      ensures objects == Scenes.RemoveEach(old(objects) + old(toSpawn), notified) && toDie == []
      ensures camera.subscribers == Scenes.AfterOnDie(old(camera.subscribers), notified)
      ensures camera.sizeMultiplier == old(camera.sizeMultiplier)
      ensures camera.screenWidth == old(camera.screenWidth) && camera.screenHeight == old(camera.screenHeight)
      ensures pressedKeys == old(pressedKeys)
    {
      Admit();
      updated, shifts := [], [];
      if physics {
        updated, shifts := UpdateAll(dt, beh);
      }
      notified := ProcessDeaths();
    }

    /** Every pending spawn is appended to `Objects` in FIFO order. */
    method Admit()
      modifies this
      ensures objects == old(objects) + old(toSpawn) && toSpawn == []
      ensures toDie == old(toDie) && pressedKeys == old(pressedKeys)
    {
      if |toSpawn| > 0 {
        var i := 0;
        while i < |toSpawn|
          invariant 0 <= i <= |toSpawn|
          invariant toSpawn == old(toSpawn) && toDie == old(toDie) && pressedKeys == old(pressedKeys)
          invariant objects == old(objects) + toSpawn[..i]
        {
          objects := objects + [toSpawn[i]];
          i := i + 1;
        }
        toSpawn := [];
      }
    }

    /**
     * One `Update` call per live object, in list order; the requests go to the
     * queues, and an update that moves the camera writes its centre and velocity
     * and, when it shifts the origin, runs `OriginShift`.
     */
    method UpdateAll(dt: real, beh: Behaviour) returns (updated: seq<Entity>, shifts: seq<Vec2>)
      modifies this, camera
      ensures updated == old(objects) && objects == old(objects)
      ensures var p := Pass(beh, updated, dt, Track(old(camera.center), old(camera.centerVelocity)), |updated|);
        && toSpawn == old(toSpawn) + p.spawns
        && toDie == old(toDie) + p.deaths
        && camera.center == p.track.center && camera.centerVelocity == p.track.velocity
        && shifts == p.shifts
      ensures camera.subscribers == old(camera.subscribers) && camera.sizeMultiplier == old(camera.sizeMultiplier)
      ensures camera.screenWidth == old(camera.screenWidth) && camera.screenHeight == old(camera.screenHeight)
      ensures pressedKeys == old(pressedKeys)
    {
      ghost var t0 := Track(camera.center, camera.centerVelocity);
      ghost var subs := camera.subscribers;
      ghost var pass := Pass(beh, objects, dt, t0, 0);
      updated, shifts := objects, [];
      var i := 0;
      while i < |objects|
        invariant 0 <= i <= |objects| && pass == Pass(beh, objects, dt, t0, i)
        invariant objects == old(objects) && updated == objects && pressedKeys == old(pressedKeys)
        invariant toSpawn == old(toSpawn) + pass.spawns && toDie == old(toDie) + pass.deaths
        invariant Track(camera.center, camera.centerVelocity) == pass.track
        invariant shifts == pass.shifts
        invariant camera.subscribers == subs && camera.sizeMultiplier == old(camera.sizeMultiplier)
        invariant camera.screenWidth == old(camera.screenWidth) && camera.screenHeight == old(camera.screenHeight)
      {
        var e := objects[i];
        var req := beh(e, objects, dt, Track(camera.center, camera.centerVelocity));
        PassStep(beh, objects, dt, t0, i);
        assert req == beh(objects[i], objects, dt, pass.track);
        var shifted := Apply(req);
        shifts := shifts + shifted;
        pass := Then(pass, req);
        i := i + 1;
      }
    }

    /** The scene's side of one `Update` call that made the requests `req`. */
    method Apply(req: Requests) returns (shifted: seq<Vec2>)
      modifies this, camera
      ensures toSpawn == old(toSpawn) + req.spawns && toDie == old(toDie) + req.deaths
      ensures objects == old(objects) && pressedKeys == old(pressedKeys)
      ensures Track(camera.center, camera.centerVelocity) == Moved(Track(old(camera.center), old(camera.centerVelocity)), req.move)
      ensures shifted == if req.move.Move? && req.move.shift then [req.move.center] else []
      ensures camera.subscribers == old(camera.subscribers) && camera.sizeMultiplier == old(camera.sizeMultiplier)
      ensures camera.screenWidth == old(camera.screenWidth) && camera.screenHeight == old(camera.screenHeight)
    {
      toSpawn := toSpawn + req.spawns;
      toDie := toDie + req.deaths;
      shifted := [];
      if req.move.Move? {
        camera.center, camera.centerVelocity := req.move.center, req.move.velocity;
        if req.move.shift {
          var notified, shift := camera.OriginShift();
          shifted := [shift];
        }
      }
    }

    /** The part of `e.OnDie(scene)` the camera sees: a trace unregisters its handler. */
    method OnDie(e: Entity)
      modifies camera
      ensures camera.subscribers == Scenes.AfterOnDie(old(camera.subscribers), [e])
      ensures camera.Pose() == old(camera.Pose())
    {
      if e.kind == PlayerLineTraceKind {
        camera.Unsubscribe(Cameras.ShiftHandler(e));
      }
    }

    /** `Objects.Remove(die); die.OnDie(this);` */
    method RemoveAndNotify(d: Entity)
      modifies this, camera
      ensures objects == Scenes.RemoveFirst(old(objects), d)
      ensures camera.subscribers == Scenes.AfterOnDie(old(camera.subscribers), [d])
      ensures camera.Pose() == old(camera.Pose())
      ensures toDie == old(toDie) && toSpawn == old(toSpawn) && pressedKeys == old(pressedKeys)
    {
      objects := Scenes.RemoveFirst(objects, d);
      OnDie(d);
    }

    /** Each death entry, in order, is removed from `Objects` and then gets its `OnDie`. */
    method ProcessDeaths() returns (notified: seq<Entity>)
      modifies this, camera
      ensures notified == old(toDie) && toDie == []
      ensures objects == Scenes.RemoveEach(old(objects), notified)
      ensures camera.subscribers == Scenes.AfterOnDie(old(camera.subscribers), notified)
      ensures camera.Pose() == old(camera.Pose())
      ensures toSpawn == old(toSpawn) && pressedKeys == old(pressedKeys)
    {
      var dying := toDie;
      ghost var objects0, subscribers0 := objects, camera.subscribers;
      notified := [];
      if |dying| > 0 {
        var j := 0;
        while j < |dying|
          invariant 0 <= j <= |dying|
          invariant notified == dying[..j]
          invariant objects == Scenes.RemoveEach(objects0, notified)
          invariant camera.subscribers == Scenes.AfterOnDie(subscribers0, notified)
          invariant camera.Pose() == old(camera.Pose())
          invariant toDie == dying && toSpawn == old(toSpawn) && pressedKeys == old(pressedKeys)
        {
          Scenes.PrefixStep(dying, j);
          DieNext(dying[j], notified, objects0, subscribers0);
          notified := notified + [dying[j]];
          j := j + 1;
        }
        assert dying[..j] == dying;
        toDie := [];
      }
    }

    /** One step of the death loop: the next entry is removed and notified after those before it. */
    method DieNext(d: Entity, ghost dead: seq<Entity>, ghost objects0: seq<Entity>, ghost subscribers0: seq<Cameras.Handler>)
      requires objects == Scenes.RemoveEach(objects0, dead)
      requires camera.subscribers == Scenes.AfterOnDie(subscribers0, dead)
      modifies this, camera
      ensures objects == Scenes.RemoveEach(objects0, dead + [d])
      ensures camera.subscribers == Scenes.AfterOnDie(subscribers0, dead + [d])
      ensures camera.Pose() == old(camera.Pose())
      ensures toDie == old(toDie) && toSpawn == old(toSpawn) && pressedKeys == old(pressedKeys)
    {
      Scenes.StepOfEach(objects0, subscribers0, dead, d);
      RemoveAndNotify(d);
    }
  }

  class DistanceTracker {
    const self: Entity
    var originShift: Vec2
    var distance: real
    var time: real

    /** Registers a handler that adds each shift to `originShift`. */
    constructor(camera: Camera, id: Entity)
      modifies camera
      ensures self == id && originShift == Zero && distance == 0.0 && time == 0.0
      ensures camera.subscribers == old(camera.subscribers) + [Cameras.ShiftHandler(id)]
      ensures camera.Pose() == old(camera.Pose())
    {
      self := id;
      originShift := Zero;
      distance := 0.0;
      time := 0.0;
      camera.Subscribe(Cameras.ShiftHandler(id));
    }

    /** The registered lambda `shift => originShift += shift`. */
    method OnOriginShift(shift: Vec2)
      modifies this
      ensures originShift == Add(old(originShift), shift)
      ensures distance == old(distance) && time == old(time)
    {
      originShift := Add(originShift, shift);
    }

    /**
     * With a live `Player`, records the length of its absolute position and adds
     * `dt` to the time; otherwise changes nothing. The player's body is never null
     * in this revision: `bodyPosition` gives its position. `length` is `Length()`.
     */
    method Update(dt: real, live: seq<Entity>, bodyPosition: Entity -> Vec2, length: Vec2 -> real)
      requires forall v :: IsLengthOf(length(v), v)
      modifies this
      ensures var p := Distances.FirstOfKind(live, PlayerKind);
        if p.Some? then
          && IsLengthOf(distance, Distances.AbsolutePosition(bodyPosition(p.value), old(originShift)))
          && time == old(time) + dt
        else
          distance == old(distance) && time == old(time)
      ensures originShift == old(originShift)
      ensures old(distance) >= 0.0 ==> distance >= 0.0
      ensures dt >= 0.0 ==> time >= old(time)
    {
      var p := Distances.FirstOfKind(live, PlayerKind);
      if p.Some? {
        distance := length(Add(bodyPosition(p.value), originShift));
        time := time + dt;
      }
    }
  }

  /**
   * The distance recorded does not change when the origin shifts between two
   * updates: the body moves back by the shift the tracker has just added.
   */
  lemma DistanceSurvivesShift(bodyPos: Vec2, originShift: Vec2, s: Vec2, d1: real, d2: real)
    requires IsLengthOf(d1, Distances.AbsolutePosition(bodyPos, originShift))
    requires IsLengthOf(d2, Distances.AbsolutePosition(Sub(bodyPos, s), Add(originShift, s)))
    ensures d1 == d2
  {
    Distances.AbsolutePositionRebaseInvariant(bodyPos, originShift, s);
    LengthUnique(d1, d2, Distances.AbsolutePosition(bodyPos, originShift));
  }
}
