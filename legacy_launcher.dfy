/** Spacerunner3/Program.cs, the earlier revision: the reset protocol and the settings file. */
module LegacyLauncher {
  import opened Wrappers
  import opened Vectors
  import opened Entities
  import Cameras
  import Scenes
  import SceneFacts
  import opened LegacyScenes

  /** Both ticks of `Reset` run without physics, so no object's `Update` is called and its behaviour is never consulted. */
  const Idle: Behaviour := (e: Entity, live: seq<Entity>, dt: real, t: Track) => NoRequests

  /**
   * `Reset`: every live object is queued for death and removed by a tick without
   * physics; the check throws, carrying the survivors, when any object is left;
   * otherwise the camera is reset and the four objects of a new game are spawned
   * and admitted by a second such tick. `pm`, `am`, `tracker` and `player` stand
   * for the objects it creates.
   */
  method Reset(scene: Scene, pm: Entity, am: Entity, tracker: Entity, player: Entity)
    returns (r: Result<DistanceTracker, seq<Entity>>)
    modifies scene, scene.camera
    ensures var remaining := Scenes.RemoveEach(old(scene.objects) + old(scene.toSpawn), old(scene.toDie) + old(scene.objects));
      && (r.Err? <==> !(multiset(old(scene.toSpawn)) <= multiset(old(scene.toDie))))
      && (r.Err? ==>
          && r.error == remaining && scene.objects == remaining
          && scene.camera.center == old(scene.camera.center)
          && scene.camera.subscribers == Scenes.AfterOnDie(old(scene.camera.subscribers), old(scene.toDie) + old(scene.objects)))
      && (r.Ok? ==>
          && scene.objects == [pm, am, tracker, player]
          && scene.camera.center == Zero
          && scene.camera.subscribers == [Cameras.ShiftHandler(tracker)]
          && fresh(r.value) && r.value.self == tracker && r.value.originShift == Zero)
    ensures scene.toSpawn == [] && scene.toDie == []
    ensures scene.camera.centerVelocity == old(scene.camera.centerVelocity)
    ensures scene.pressedKeys == old(scene.pressedKeys) && scene.camera.sizeMultiplier == old(scene.camera.sizeMultiplier)
    ensures scene.camera.screenWidth == old(scene.camera.screenWidth) && scene.camera.screenHeight == old(scene.camera.screenHeight)
  {
    ResetFailsExactly(scene.objects, scene.toSpawn, scene.toDie);
    var remaining := ClearPhase(scene);
    if remaining != [] {
      return Err(remaining);
    }
    var t := StartPhase(scene, pm, am, tracker, player);
    r := Ok(t);
  }

  /** The death queue filled with every live object, and the tick that removes them. */
  method ClearPhase(scene: Scene) returns (remaining: seq<Entity>)
    modifies scene, scene.camera
    ensures remaining == Scenes.RemoveEach(old(scene.objects) + old(scene.toSpawn), old(scene.toDie) + old(scene.objects))
    ensures scene.objects == remaining && scene.toSpawn == [] && scene.toDie == []
    ensures scene.camera.center == old(scene.camera.center) && scene.camera.centerVelocity == old(scene.camera.centerVelocity)
    ensures scene.camera.subscribers == Scenes.AfterOnDie(old(scene.camera.subscribers), old(scene.toDie) + old(scene.objects))
    ensures scene.pressedKeys == old(scene.pressedKeys) && scene.camera.sizeMultiplier == old(scene.camera.sizeMultiplier)
    ensures scene.camera.screenWidth == old(scene.camera.screenWidth) && scene.camera.screenHeight == old(scene.camera.screenHeight)
  {
    QueueAll(scene);
    ghost var queued := scene.toDie;
    var updated, shifts, notified := scene.Update(0.0, false, Idle);
    assert updated == [] && shifts == [] && notified == queued;
    remaining := scene.objects;
  }

  /** After a successful check: the camera reset, the four spawns, and the tick that admits them. */
  method StartPhase(scene: Scene, pm: Entity, am: Entity, tracker: Entity, player: Entity) returns (t: DistanceTracker)
    requires scene.toSpawn == [] && scene.toDie == [] && scene.objects == []
    modifies scene, scene.camera
    ensures scene.objects == [pm, am, tracker, player] && scene.toSpawn == [] && scene.toDie == []
    ensures scene.camera.center == Zero && scene.camera.subscribers == [Cameras.ShiftHandler(tracker)]
    ensures fresh(t) && t.self == tracker && t.originShift == Zero
    ensures scene.camera.centerVelocity == old(scene.camera.centerVelocity)
    ensures scene.pressedKeys == old(scene.pressedKeys) && scene.camera.sizeMultiplier == old(scene.camera.sizeMultiplier)
    ensures scene.camera.screenWidth == old(scene.camera.screenWidth) && scene.camera.screenHeight == old(scene.camera.screenHeight)
  {
    scene.camera.ResetOriginShift();
    scene.Spawn(pm);
    scene.Spawn(am);
    t := new DistanceTracker(scene.camera, tracker);
    scene.Spawn(tracker);
    scene.Spawn(player);
    var updated, shifts, notified := scene.Update(0.0, false, Idle);
    assert updated == [] && shifts == [] && notified == [];
  }

  /** `foreach (var obj in scene.Objects) scene.Die(obj);` */
  method QueueAll(scene: Scene)
    modifies scene
    ensures scene.toDie == old(scene.toDie) + old(scene.objects)
    ensures scene.objects == old(scene.objects) && scene.toSpawn == old(scene.toSpawn)
    ensures scene.pressedKeys == old(scene.pressedKeys)
  {
    var i := 0;
    while i < |scene.objects|
      invariant 0 <= i <= |scene.objects|
      invariant scene.objects == old(scene.objects) && scene.toSpawn == old(scene.toSpawn)
      invariant scene.toDie == old(scene.toDie) + scene.objects[..i]
      invariant scene.pressedKeys == old(scene.pressedKeys)
    {
      scene.Die(scene.objects[i]);
      i := i + 1;
    }
  }

  /**
   * The check after the clearing tick fails exactly when some object pending spawn
   * is not matched by a death entry already queued: the live objects are each
   * queued once more, but the pending ones are admitted without being queued.
   */
  lemma ResetFailsExactly(objects: seq<Entity>, toSpawn: seq<Entity>, toDie: seq<Entity>)
    ensures Scenes.RemoveEach(objects + toSpawn, toDie + objects) == [] <==> multiset(toSpawn) <= multiset(toDie)
  {
    var left := Scenes.RemoveEach(objects + toSpawn, toDie + objects);
    SceneFacts.RemoveEachMultiset(objects + toSpawn, toDie + objects);
    assert |left| == |multiset(left)|;
    var o, s, d := multiset(objects), multiset(toSpawn), multiset(toDie);
    assert multiset(left) == (o + s) - (d + o);
    if s <= d {
      assert (o + s) <= (d + o);
      assert multiset(left) == multiset{};
    } else {
      var e :| s[e] > d[e];
      assert ((o + s) - (d + o))[e] > 0;
      assert e in multiset(left);
    }
  }

  /** With no spawn pending, `Reset` never throws. */
  lemma NothingPendingResets(objects: seq<Entity>, toDie: seq<Entity>)
    ensures Scenes.RemoveEach(objects, toDie + objects) == []
  {
    ResetFailsExactly(objects, [], toDie);
    assert objects + [] == objects;
  }

  /** What `Main` does with the settings file. */
  datatype Launch = Game(settingsFile: string, loadSettings: bool, saveSettings: bool)

  const DefaultSettingsFile: string := "settings.xml"

  /**
   * `InitSettings` and `SaveSettings`: the file is the first argument, or
   * `settings.xml`; it is loaded when it exists (the defaults are used otherwise)
   * and it is written after the game in every case. `existing` is the set of files
   * that exist.
   */
  function Plan(args: seq<string>, existing: set<string>): (p: Launch)
    ensures p.settingsFile == (if |args| == 0 then DefaultSettingsFile else args[0])
    ensures p.loadSettings <==> p.settingsFile in existing
    ensures p.saveSettings
  {
    var arg: Option<string> := if |args| == 0 then None else Some(args[0]);
    var file := arg.GetOr(DefaultSettingsFile);
    Game(file, file in existing, true)
  }
}
