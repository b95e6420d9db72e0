/**
 * Scene.cs and SceneClearer.cs: the registry of live objects with its deferred
 * spawn and death queues, and the object that empties it.
 */
module Scenes {
  import opened Vectors
  import opened Entities
  import opened Cameras

  /** `List.Remove`: drops the first occurrence of `x`; a list without `x` is returned unchanged. */
  function RemoveFirst(s: seq<Entity>, x: Entity): (r: seq<Entity>)
    ensures x !in s ==> r == s
    ensures multiset(r) == multiset(s) - multiset{x}
  {
    if |s| == 0 then []
    else
      assert s == [s[0]] + s[1..];
      if s[0] == x then s[1..] else [s[0]] + RemoveFirst(s[1..], x)
  }

  /** `List.IndexOf`: the position of the first occurrence. */
  function IndexOf(s: seq<Entity>, x: Entity): (k: nat)
    requires x in s
    ensures k < |s| && s[k] == x && x !in s[..k]
  {
    if s[0] == x then 0
    else
      assert s == [s[0]] + s[1..];
      1 + IndexOf(s[1..], x)
  }

  /** The removed occurrence is the first one; everything before and after it keeps its order. */
  lemma {:induction false} RemoveFirstAt(s: seq<Entity>, x: Entity)
    requires x in s
    ensures RemoveFirst(s, x) == s[..IndexOf(s, x)] + s[IndexOf(s, x) + 1..]
  {
    if s[0] != x {
      var t := s[1..];
      RemoveFirstAt(t, x);
      var k := IndexOf(t, x);
      RemoveFirstSkips(s, x);
      SplitAround(s, k);
    } else {
      assert s[..0] + s[1..] == s[1..];
    }
  }

  /** Past a head other than `x`, `RemoveFirst` and `IndexOf` work on the tail. */
  lemma RemoveFirstSkips(s: seq<Entity>, x: Entity)
    requires x in s && s[0] != x
    ensures x in s[1..]
    ensures RemoveFirst(s, x) == [s[0]] + RemoveFirst(s[1..], x)
    ensures IndexOf(s, x) == IndexOf(s[1..], x) + 1
  {
    assert s == [s[0]] + s[1..];
  }

  /** The parts of `s` around position `k + 1` from those of its tail around `k`. */
  lemma SplitAround(s: seq<Entity>, k: nat)
    requires k + 1 < |s|
    ensures [s[0]] + (s[1..][..k] + s[1..][k + 1..]) == s[..k + 1] + s[k + 2..]
  {
    assert s[..k + 1] == [s[0]] + s[1..][..k];
    assert s[k + 2..] == s[1..][k + 1..];
  }

  /** The death loop's effect on `Objects`: one `Remove` per death entry, in queue order. */
  function RemoveEach(s: seq<Entity>, dead: seq<Entity>): seq<Entity>
  {
    if |dead| == 0 then s
    else RemoveFirst(RemoveEach(s, dead[..|dead| - 1]), dead[|dead| - 1])
  }

  /** `SceneClearer.Update` asks for the death of every live object, spawns nothing and leaves the camera alone. */
  function ClearerRequests(live: seq<Entity>): Requests {
    Requests([], live, Keep)
  }

  /** The requests of one object's `Update` during the pass over `live`, the camera standing at `t`. */
  function RequestsOf(beh: Behaviour, e: Entity, live: seq<Entity>, dt: real, t: Track): Requests {
    if e.kind == SceneClearerKind then ClearerRequests(live) else beh(e, live, dt, t)
  }

  /**
   * The effect of the updates of `live[..n]`, in call order, from the camera
   * fields `t0`: each object sees the camera as the objects before it left it.
   */
  function During(beh: Behaviour, live: seq<Entity>, dt: real, t0: Track, n: nat): PassResult
    requires n <= |live|
  {
    if n == 0 then PassResult([], [], t0, [])
    else
      var before := During(beh, live, dt, t0, n - 1);
      Then(before, RequestsOf(beh, live[n - 1], live, dt, before.track))
  }

  /**
   * The invocation list after `OnDie` ran for each entry of `dead`, in order: a
   * `PlayerLineTrace` unregisters its own handler; no other class touches the camera.
   */
  function AfterOnDie(subs: seq<Handler>, dead: seq<Entity>): seq<Handler>
  {
    if |dead| == 0 then subs
    else
      var before := AfterOnDie(subs, dead[..|dead| - 1]);
      var d := dead[|dead| - 1];
      if d.kind == PlayerLineTraceKind then RemoveLast(before, ShiftHandler(d)) else before
  }

  /** `Drawables`: the objects that are `IDrawable`, in list order. */
  function Drawable(s: seq<Entity>): (r: seq<Entity>)
    ensures forall x :: x in r <==> x in s && IsDrawable(x)
    ensures |r| <= |s|
  {
    if |s| == 0 then []
    else if IsDrawable(s[|s| - 1]) then Drawable(s[..|s| - 1]) + [s[|s| - 1]]
    else
      assert s == s[..|s| - 1] + [s[|s| - 1]];
      Drawable(s[..|s| - 1])
  }

  /** One more update of a pass. */
  lemma PassStep(beh: Behaviour, live: seq<Entity>, dt: real, t0: Track, i: nat)
    requires i < |live|
    ensures var p := During(beh, live, dt, t0, i);
      var r := RequestsOf(beh, live[i], live, dt, p.track);
      && During(beh, live, dt, t0, i + 1) == Then(p, r)
  {
  }

  class Scene {
    const camera: Camera
    var objects: seq<Entity>
    var toSpawn: seq<Entity>
    var toDie: seq<Entity>
    var pressedKeys: set<int>

    constructor(screenSize: real)
      ensures fresh(camera)
      ensures camera.center == Zero && camera.Size() == screenSize && camera.subscribers == []
      ensures objects == [] && toSpawn == [] && toDie == [] && pressedKeys == {}
    {
      camera := new Camera(screenSize);
      objects := [];
      toSpawn := [];
      toDie := [];
      pressedKeys := {};
    }

    function Drawables(): seq<Entity>
      reads this
    {
      Drawable(objects)
    }

    method Spawn(e: Entity)
      modifies this
      ensures toSpawn == old(toSpawn) + [e]
      ensures objects == old(objects) && toDie == old(toDie) && pressedKeys == old(pressedKeys)
    {
      toSpawn := toSpawn + [e];
    }

    method Die(e: Entity)
      modifies this
      ensures toDie == old(toDie) + [e]
      ensures objects == old(objects) && toSpawn == old(toSpawn) && pressedKeys == old(pressedKeys)
    {
      toDie := toDie + [e];
    }

    /** The part of `e.OnDie(scene)` that the scene and its camera can see. */
    method OnDie(e: Entity)
      modifies camera
      ensures camera.subscribers == AfterOnDie(old(camera.subscribers), [e])
      ensures camera.Pose() == old(camera.Pose())
    {
      if e.kind == PlayerLineTraceKind {
        camera.Unsubscribe(ShiftHandler(e));
      }
    }

    /**
     * One tick. Admits the spawn queue, calls `Update` on every object of the
     * resulting list (`updated`, in call order), then removes one occurrence per
     * death entry and runs `OnDie` for it (`notified`, in call order). The updates
     * move the camera as they ask; `shifts` are the vectors of the origin shifts they
     * caused, each handed to every handler of the invocation list, which the updates
     * leave as it was.
     */
    method Update(dt: real, beh: Behaviour) returns (updated: seq<Entity>, shifts: seq<Vec2>, notified: seq<Entity>)
      modifies this, camera
      ensures updated == old(objects) + old(toSpawn)
      ensures var p := During(beh, updated, dt, Track(old(camera.center), old(camera.centerVelocity)), |updated|);
        && toSpawn == p.spawns
        && notified == old(toDie) + p.deaths
        && camera.center == p.track.center && camera.centerVelocity == p.track.velocity
        && shifts == p.shifts
      ensures objects == RemoveEach(updated, notified)
      ensures toDie == []
      ensures camera.subscribers == AfterOnDie(old(camera.subscribers), notified)
      ensures camera.sizeMultiplier == old(camera.sizeMultiplier) && camera.screenScale == old(camera.screenScale)
      ensures pressedKeys == old(pressedKeys)
    {
      Admit();
      updated, shifts := UpdateAll(dt, beh);
      notified := ProcessDeaths();
    }

    /** The first step of a tick: every pending spawn is appended to `Objects` in FIFO order. */
    method Admit()
      modifies this
      ensures objects == old(objects) + old(toSpawn) && toSpawn == []
      ensures toDie == old(toDie) && pressedKeys == old(pressedKeys)
    {
      if |toSpawn| > 0 {
        var i := 0;
        while i < |toSpawn|
          invariant 0 <= i <= |toSpawn|
          invariant toSpawn == old(toSpawn) && toDie == old(toDie) && pressedKeys == old(pressedKeys)
          invariant objects == old(objects) + toSpawn[..i]
        {
          objects := objects + [toSpawn[i]];
          i := i + 1;
        }
        toSpawn := [];
      }
    }

    /**
     * The second step: one `Update` call per live object, in list order; `Objects`
     * itself is not touched. An update that moves the camera writes its centre and
     * velocity, and one that shifts the origin then runs `OriginShift`.
     */
    method UpdateAll(dt: real, beh: Behaviour) returns (updated: seq<Entity>, shifts: seq<Vec2>)
      modifies this, camera
      ensures updated == old(objects) && objects == old(objects)
      ensures var p := During(beh, updated, dt, Track(old(camera.center), old(camera.centerVelocity)), |updated|);
        && toSpawn == old(toSpawn) + p.spawns
        && toDie == old(toDie) + p.deaths
        && camera.center == p.track.center && camera.centerVelocity == p.track.velocity
        && shifts == p.shifts
      ensures camera.subscribers == old(camera.subscribers)
      ensures camera.sizeMultiplier == old(camera.sizeMultiplier) && camera.screenScale == old(camera.screenScale)
      ensures pressedKeys == old(pressedKeys)
    {
      ghost var t0 := Track(camera.center, camera.centerVelocity);
      ghost var pass := During(beh, objects, dt, t0, 0);
      updated, shifts := objects, [];
      var i := 0;
      while i < |objects|
        invariant 0 <= i <= |objects| && pass == During(beh, objects, dt, t0, i)
        invariant objects == old(objects) && updated == objects && pressedKeys == old(pressedKeys)
        invariant Tallied(old(toSpawn), old(toDie), pass, shifts)
        invariant camera.subscribers == old(camera.subscribers)
        invariant camera.sizeMultiplier == old(camera.sizeMultiplier) && camera.screenScale == old(camera.screenScale)
      {
        PassStep(beh, objects, dt, t0, i);
        var shifted := UpdateOne(beh, objects[i], dt, objects, old(toSpawn), old(toDie), pass, shifts);
        shifts := shifts + shifted;
        pass := Then(pass, RequestsOf(beh, objects[i], objects, dt, pass.track));
        i := i + 1;
      }
    }

    /**
     * The queues, the camera fields and the origin shifts so far are those of the
     * partial pass `pass` on top of the queues `spawn0` and `die0`.
     */
    ghost predicate Tallied(spawn0: seq<Entity>, die0: seq<Entity>, pass: PassResult, shifts: seq<Vec2>)
      reads this, camera
    {
      && toSpawn == spawn0 + pass.spawns && toDie == die0 + pass.deaths
      && Track(camera.center, camera.centerVelocity) == pass.track
      && shifts == pass.shifts
    }

    /** One object's `Update` during the pass: the clearer's own, or what `beh` says of any other. */
    method UpdateOne(beh: Behaviour, e: Entity, dt: real, ghost live: seq<Entity>,
                     ghost spawn0: seq<Entity>, ghost die0: seq<Entity>, ghost pass: PassResult, ghost shifts: seq<Vec2>)
      returns (shifted: seq<Vec2>)
      requires objects == live && Tallied(spawn0, die0, pass, shifts)
      modifies this, camera
      ensures Tallied(spawn0, die0, Then(pass, RequestsOf(beh, e, live, dt, pass.track)), shifts + shifted)
      ensures objects == old(objects) && pressedKeys == old(pressedKeys)
      ensures camera.subscribers == old(camera.subscribers)
      ensures camera.sizeMultiplier == old(camera.sizeMultiplier) && camera.screenScale == old(camera.screenScale)
    {
      ghost var after := Then(pass, RequestsOf(beh, e, live, dt, pass.track));
      if e.kind == SceneClearerKind {
        assert after == PassResult(pass.spawns, pass.deaths + live, pass.track, pass.shifts);
        ClearerUpdate(this);
        shifted := [];
      } else {
        var req := beh(e, objects, dt, Track(camera.center, camera.centerVelocity));
        assert after == Then(pass, req);
        shifted := Apply(req);
      }
    }

    /** The scene's side of one `Update` call that made the requests `req`. */
    method Apply(req: Requests) returns (shifted: seq<Vec2>)
      modifies this, camera
      ensures toSpawn == old(toSpawn) + req.spawns && toDie == old(toDie) + req.deaths
      ensures objects == old(objects) && pressedKeys == old(pressedKeys)
      ensures Track(camera.center, camera.centerVelocity) == Moved(Track(old(camera.center), old(camera.centerVelocity)), req.move)
      ensures shifted == if req.move.Move? && req.move.shift then [req.move.center] else []
      ensures camera.subscribers == old(camera.subscribers)
      ensures camera.sizeMultiplier == old(camera.sizeMultiplier) && camera.screenScale == old(camera.screenScale)
    {
      toSpawn := toSpawn + req.spawns;
      toDie := toDie + req.deaths;
      shifted := [];
      if req.move.Move? {
        camera.center, camera.centerVelocity := req.move.center, req.move.velocity;
        if req.move.shift {
          var notified, shift := camera.OriginShift();
          shifted := [shift];
        }
      }
    }

    /** `Objects.Remove(die); die.OnDie(this);` */
    method RemoveAndNotify(d: Entity)
      modifies this, camera
      ensures objects == RemoveFirst(old(objects), d)
      ensures camera.subscribers == AfterOnDie(old(camera.subscribers), [d])
      ensures camera.Pose() == old(camera.Pose())
      ensures toDie == old(toDie) && toSpawn == old(toSpawn) && pressedKeys == old(pressedKeys)
    {
      objects := RemoveFirst(objects, d);
      OnDie(d);
    }

    /** The last step: each death entry, in order, is removed from `Objects` and then gets its `OnDie`. */
    method ProcessDeaths() returns (notified: seq<Entity>)
      modifies this, camera
      ensures notified == old(toDie) && toDie == []
      ensures objects == RemoveEach(old(objects), notified)
      ensures camera.subscribers == AfterOnDie(old(camera.subscribers), notified)
      ensures camera.Pose() == old(camera.Pose())
      ensures toSpawn == old(toSpawn) && pressedKeys == old(pressedKeys)
    {
      var dying := toDie;
      ghost var objects0, subscribers0 := objects, camera.subscribers;
      notified := [];
      if |dying| > 0 {
        var j := 0;
        while j < |dying|
          invariant 0 <= j <= |dying|
          invariant notified == dying[..j]
          invariant objects == RemoveEach(objects0, notified)
          invariant camera.subscribers == AfterOnDie(subscribers0, notified)
          invariant camera.Pose() == old(camera.Pose())
          invariant toDie == dying && toSpawn == old(toSpawn) && pressedKeys == old(pressedKeys)
        {
          PrefixStep(dying, j);
          DieNext(dying[j], notified, objects0, subscribers0);
          notified := notified + [dying[j]];
          j := j + 1;
        }
        assert dying[..j] == dying;
        toDie := [];
      }
    }

    /** One step of the death loop: the next entry is removed and notified after those before it. */
    method DieNext(d: Entity, ghost dead: seq<Entity>, ghost objects0: seq<Entity>, ghost subscribers0: seq<Handler>)
      requires objects == RemoveEach(objects0, dead)
      requires camera.subscribers == AfterOnDie(subscribers0, dead)
      modifies this, camera
      ensures objects == RemoveEach(objects0, dead + [d])
      ensures camera.subscribers == AfterOnDie(subscribers0, dead + [d])
      ensures camera.Pose() == old(camera.Pose())
      ensures toDie == old(toDie) && toSpawn == old(toSpawn) && pressedKeys == old(pressedKeys)
    {
      StepOfEach(objects0, subscribers0, dead, d);
      RemoveAndNotify(d);
    }
  }

  /** One more death entry: one more `Remove`, one more `OnDie`. */
  lemma PrefixStep(s: seq<Entity>, j: nat)
    requires j < |s|
    ensures s[..j + 1] == s[..j] + [s[j]]
  {
  }

  lemma StepOfEach(s: seq<Entity>, subs: seq<Handler>, dead: seq<Entity>, d: Entity)
    ensures RemoveEach(s, dead + [d]) == RemoveFirst(RemoveEach(s, dead), d)
    ensures AfterOnDie(subs, dead + [d]) == AfterOnDie(AfterOnDie(subs, dead), [d])
  {
    assert (dead + [d])[..|dead|] == dead;
  }

  /** `SceneClearer.Update`: queues every live object for death, in list order, itself included. */
  method ClearerUpdate(scene: Scene)
    modifies scene
    ensures scene.toDie == old(scene.toDie) + old(scene.objects)
    ensures scene.objects == old(scene.objects) && scene.toSpawn == old(scene.toSpawn)
    ensures scene.pressedKeys == old(scene.pressedKeys)
  {
    var i := 0;
    while i < |scene.objects|
      invariant 0 <= i <= |scene.objects|
      invariant scene.objects == old(scene.objects) && scene.toSpawn == old(scene.toSpawn)
      invariant scene.toDie == old(scene.toDie) + scene.objects[..i]
      invariant scene.pressedKeys == old(scene.pressedKeys)
    {
      scene.Die(scene.objects[i]);
      i := i + 1;
    }
  }
}

/** Properties of the registry's bookkeeping. */
module SceneFacts {
  import opened Entities
  import opened Cameras
  import opened Scenes

  /** After the death loop, `Objects` holds exactly the old objects minus one occurrence per death entry. */
  lemma {:induction false} RemoveEachMultiset(s: seq<Entity>, dead: seq<Entity>)
    ensures multiset(RemoveEach(s, dead)) == multiset(s) - multiset(dead)
  {
    if |dead| > 0 {
      var init := dead[..|dead| - 1];
      var d := dead[|dead| - 1];
      assert dead == init + [d];
      RemoveEachMultiset(s, init);
      RemoveOneMore(RemoveEach(s, init), multiset(s), multiset(init), d);
    }
  }

  /** One more `Remove` of `d` from a list whose contents are `a - b`. */
  lemma RemoveOneMore(r: seq<Entity>, a: multiset<Entity>, b: multiset<Entity>, d: Entity)
    requires multiset(r) == a - b
    ensures multiset(RemoveFirst(r, d)) == a - (b + multiset{d})
  {
    SubtractInTurn(a, b, multiset{d});
  }

  lemma SubtractInTurn(a: multiset<Entity>, b: multiset<Entity>, c: multiset<Entity>)
    ensures (a - b) - c == a - (b + c)
  {
    forall e
      ensures ((a - b) - c)[e] == (a - (b + c))[e]
    {
    }
  }

  /** The death requests of every object updated in the pass are part of the pass's death requests. */
  lemma {:induction false} DeathsIncludeEach(beh: Behaviour, live: seq<Entity>, dt: real, t0: Track, n: nat, j: nat)
    requires j < n <= |live|
    ensures var t := During(beh, live, dt, t0, j).track;
      multiset(RequestsOf(beh, live[j], live, dt, t).deaths) <= multiset(During(beh, live, dt, t0, n).deaths)
  {
    var p := During(beh, live, dt, t0, n - 1);
    var r := RequestsOf(beh, live[n - 1], live, dt, p.track);
    assert During(beh, live, dt, t0, n).deaths == p.deaths + r.deaths;
    assert multiset(p.deaths + r.deaths) == multiset(p.deaths) + multiset(r.deaths);
    if j < n - 1 {
      DeathsIncludeEach(beh, live, dt, t0, n - 1, j);
    }
  }

  /**
   * In a tick whose live list holds a `SceneClearer`, every object admitted at
   * that tick's admission step is gone when the tick ends, whatever the other
   * objects ask for.
   */
  lemma ClearingTickEmpties(beh: Behaviour, live: seq<Entity>, before: seq<Entity>, dt: real, t0: Track)
    requires exists k :: 0 <= k < |live| && live[k].kind == SceneClearerKind
    ensures RemoveEach(live, before + During(beh, live, dt, t0, |live|).deaths) == []
  {
    var k :| 0 <= k < |live| && live[k].kind == SceneClearerKind;
    var deaths := During(beh, live, dt, t0, |live|).deaths;
    DeathsIncludeEach(beh, live, dt, t0, |live|, k);
    assert multiset(live) <= multiset(deaths);
    RemoveEachMultiset(live, before + deaths);
    var left := RemoveEach(live, before + deaths);
    assert multiset(left) == multiset{};
    assert |left| == |multiset(left)|;
  }

  /** When no object moves the camera at this `dt`, a pass leaves the camera where it was and shifts nothing. */
  lemma {:induction false} StillPassKeepsCamera(beh: Behaviour, live: seq<Entity>, dt: real, t0: Track, n: nat)
    requires KeepsCamera(beh, dt) && n <= |live|
    ensures During(beh, live, dt, t0, n).track == t0
    ensures During(beh, live, dt, t0, n).shifts == []
  {
    if n > 0 {
      StillPassKeepsCamera(beh, live, dt, t0, n - 1);
      var t := During(beh, live, dt, t0, n - 1).track;
      assert RequestsOf(beh, live[n - 1], live, dt, t).move.Keep?;
    }
  }

  /** Deaths of objects other than traces never touch the invocation list. */
  lemma {:induction false} AfterOnDieKeepsOtherHandlers(subs: seq<Handler>, dead: seq<Entity>)
    requires forall h :: h in subs ==> h.owner.kind != PlayerLineTraceKind
    ensures AfterOnDie(subs, dead) == subs
  {
    if |dead| > 0 {
      AfterOnDieKeepsOtherHandlers(subs, dead[..|dead| - 1]);
    }
  }

  /** A `PlayerLineTrace` that dies once removes exactly its own handler, registered once. */
  lemma TraceDeathUnsubscribes(subs: seq<Handler>, t: Entity)
    requires t.kind == PlayerLineTraceKind && ShiftHandler(t) in subs
    ensures |AfterOnDie(subs, [t])| == |subs| - 1
    ensures multiset(AfterOnDie(subs, [t])) == multiset(subs) - multiset{ShiftHandler(t)}
  {
    assert [t][..0] == [];
  }
}
