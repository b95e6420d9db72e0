/** Program.cs: the scene reset protocol and what the command line selects. */
module Launcher {
  import opened Wrappers
  import opened Vectors
  import opened Entities
  import opened Cameras
  import opened Scenes
  import opened SceneFacts
  import opened Distances

  /**
   * `Reset`: one clearing tick, the emptiness check, then a fresh game. `clearer`,
   * `pm`, `am`, `tracker` and `player` stand for the objects it creates; `clearTick`
   * and `startTick` are the behaviour of the other objects during its two `Update(0)`
   * calls. The exception carries the objects that survived the clearing tick;
   * `shifts` are the vectors of the origin shifts the two ticks caused, each
   * handed to the invocation list of its tick.
   */
  method Reset(scene: Scene, clearer: Entity, pm: Entity, am: Entity, tracker: Entity, player: Entity,
               clearTick: Behaviour, startTick: Behaviour)
    returns (r: Result<DistanceTracker, seq<Entity>>, shifts: seq<Vec2>)
    requires clearer.kind == SceneClearerKind && pm.kind == PhysicsManagerKind && am.kind == AsteroidManagerKind
    requires tracker.kind == DistanceTrackerKind && player.kind == PlayerKind
    modifies scene, scene.camera
    ensures var live := old(scene.objects) + old(scene.toSpawn) + [clearer];
      var clear := During(clearTick, live, 0.0, Track(old(scene.camera.center), old(scene.camera.centerVelocity)), |live|);
      var remaining := RemoveEach(live, old(scene.toDie) + clear.deaths);
      && (r.Err? <==> remaining != [])
      && (r.Err? ==>
          && r.error == remaining && scene.objects == remaining
          && scene.toSpawn == clear.spawns && scene.toDie == []
          && scene.camera.center == clear.track.center && scene.camera.centerVelocity == clear.track.velocity
          && scene.camera.subscribers == AfterOnDie(old(scene.camera.subscribers), old(scene.toDie) + clear.deaths)
          && shifts == clear.shifts)
      && (r.Ok? ==>
          var start := clear.spawns + [pm, am, tracker, player];
          var p := During(startTick, start, 0.0, Track(Zero, clear.track.velocity), |start|);
          && scene.objects == RemoveEach(start, p.deaths)
          && scene.toSpawn == p.spawns
          && scene.toDie == []
          && scene.camera.center == p.track.center && scene.camera.centerVelocity == p.track.velocity
          && scene.camera.subscribers == [ShiftHandler(tracker)]
          && shifts == clear.shifts + p.shifts
          && r.value.self == tracker && r.value.originShift == Zero)
    ensures scene.pressedKeys == old(scene.pressedKeys)
    ensures scene.camera.sizeMultiplier == old(scene.camera.sizeMultiplier) && scene.camera.screenScale == old(scene.camera.screenScale)
  {
    ghost var live := scene.objects + scene.toSpawn + [clearer];
    ghost var t0 := Track(scene.camera.center, scene.camera.centerVelocity);
    ghost var clear := During(clearTick, live, 0.0, t0, |live|);
    var remaining, cleared := ClearPhase(scene, clearer, clearTick);
    shifts := cleared;
    if remaining != [] {
      return Err(remaining), shifts;
    }
    ghost var start := clear.spawns + [pm, am, tracker, player];
    assert scene.toSpawn == clear.spawns && scene.camera.centerVelocity == clear.track.velocity;
    var t, started := StartPhase(scene, pm, am, tracker, player, startTick);
    ghost var p := During(startTick, start, 0.0, Track(Zero, clear.track.velocity), |start|);
    assert started == p.shifts && scene.camera.center == p.track.center;
    shifts := shifts + started;
    r := Ok(t);
  }

  /**
   * With no object moving the camera, neither tick of `Reset` shifts the origin
   * and the centre ends at the origin (by `Reset`'s contract, `shifts` is then
   * empty and the camera centre is zero).
   */
  lemma StillResetKeepsCamera(live: seq<Entity>, created: seq<Entity>, clearTick: Behaviour, startTick: Behaviour, t0: Track)
    requires KeepsCamera(clearTick, 0.0) && KeepsCamera(startTick, 0.0)
    ensures var clear := During(clearTick, live, 0.0, t0, |live|);
      var start := clear.spawns + created;
      var p := During(startTick, start, 0.0, Track(Zero, clear.track.velocity), |start|);
      clear.shifts == [] && p.shifts == [] && p.track.center == Zero
  {
    StillPassKeepsCamera(clearTick, live, 0.0, t0, |live|);
    var clear := During(clearTick, live, 0.0, t0, |live|);
    var start := clear.spawns + created;
    StillPassKeepsCamera(startTick, start, 0.0, Track(Zero, clear.track.velocity), |start|);
  }

  /** `Spawn(new SceneClearer()); Update(0);` and the objects that are left. */
  method ClearPhase(scene: Scene, clearer: Entity, clearTick: Behaviour)
    returns (remaining: seq<Entity>, shifts: seq<Vec2>)
    requires clearer.kind == SceneClearerKind
    modifies scene, scene.camera
    ensures var live := old(scene.objects) + old(scene.toSpawn) + [clearer];
      var clear := During(clearTick, live, 0.0, Track(old(scene.camera.center), old(scene.camera.centerVelocity)), |live|);
      && remaining == RemoveEach(live, old(scene.toDie) + clear.deaths)
      && scene.objects == remaining
      && scene.toSpawn == clear.spawns
      && scene.toDie == []
      && scene.camera.center == clear.track.center && scene.camera.centerVelocity == clear.track.velocity
      && scene.camera.subscribers == AfterOnDie(old(scene.camera.subscribers), old(scene.toDie) + clear.deaths)
      && shifts == clear.shifts
    ensures scene.pressedKeys == old(scene.pressedKeys)
    ensures scene.camera.sizeMultiplier == old(scene.camera.sizeMultiplier) && scene.camera.screenScale == old(scene.camera.screenScale)
  {
    ghost var live := scene.objects + scene.toSpawn + [clearer];
    ghost var before := scene.toDie;
    scene.Spawn(clearer);
    assert scene.objects + scene.toSpawn == live;
    var updated, notified;
    updated, shifts, notified := scene.Update(0.0, clearTick);
    assert updated == live;
    remaining := scene.objects;
  }

  /** The part of `Reset` after a successful check, on an empty registry. */
  method StartPhase(scene: Scene, pm: Entity, am: Entity, tracker: Entity, player: Entity, startTick: Behaviour)
    returns (t: DistanceTracker, shifts: seq<Vec2>)
    requires tracker.kind == DistanceTrackerKind
    requires scene.objects == [] && scene.toDie == []
    modifies scene, scene.camera
    ensures var start := old(scene.toSpawn) + [pm, am, tracker, player];
      var p := During(startTick, start, 0.0, Track(Zero, old(scene.camera.centerVelocity)), |start|);
      && scene.objects == RemoveEach(start, p.deaths)
      && scene.toSpawn == p.spawns
      && scene.toDie == []
      && scene.camera.center == p.track.center && scene.camera.centerVelocity == p.track.velocity
      && scene.camera.subscribers == [ShiftHandler(tracker)]
      && shifts == p.shifts
      && t.self == tracker && t.originShift == Zero
    ensures scene.pressedKeys == old(scene.pressedKeys)
    ensures scene.camera.sizeMultiplier == old(scene.camera.sizeMultiplier) && scene.camera.screenScale == old(scene.camera.screenScale)
  {
    ghost var start := scene.toSpawn + [pm, am, tracker, player];
    ghost var v := scene.camera.centerVelocity;
    t := Respawn(scene, pm, am, tracker, player);
    assert scene.objects + scene.toSpawn == start;
    assert Track(scene.camera.center, scene.camera.centerVelocity) == Track(Zero, v);
    var subs := scene.camera.subscribers;
    var updated, notified;
    ghost var p := During(startTick, start, 0.0, Track(Zero, v), |start|);
    updated, shifts, notified := scene.Update(0.0, startTick);
    assert updated == start;
    assert scene.toSpawn == p.spawns && notified == p.deaths;
    assert scene.camera.center == p.track.center;
    AfterOnDieKeepsOtherHandlers(subs, notified);
  }

  /** `ResetOriginShift()` and the four spawns, the tracker registering its handler on construction. */
  method Respawn(scene: Scene, pm: Entity, am: Entity, tracker: Entity, player: Entity) returns (t: DistanceTracker)
    modifies scene, scene.camera
    ensures scene.toSpawn == old(scene.toSpawn) + [pm, am, tracker, player]
    ensures scene.objects == old(scene.objects) && scene.toDie == old(scene.toDie)
    ensures scene.camera.center == Zero && scene.camera.subscribers == [ShiftHandler(tracker)]
    ensures scene.camera.centerVelocity == old(scene.camera.centerVelocity)
    ensures scene.pressedKeys == old(scene.pressedKeys)
    ensures scene.camera.sizeMultiplier == old(scene.camera.sizeMultiplier) && scene.camera.screenScale == old(scene.camera.screenScale)
    ensures t.self == tracker && t.originShift == Zero && fresh(t)
  {
    scene.camera.ResetOriginShift();
    scene.Spawn(pm);
    scene.Spawn(am);
    t := new DistanceTracker(scene.camera, tracker);
    scene.Spawn(tracker);
    scene.Spawn(player);
  }

  /** The clearing tick of `Reset` always empties the scene, so `Reset` never throws. */
  lemma ResetNeverThrows(objects: seq<Entity>, toSpawn: seq<Entity>, toDie: seq<Entity>, clearer: Entity, clearTick: Behaviour, t0: Track)
    requires clearer.kind == SceneClearerKind
    ensures var live := objects + toSpawn + [clearer];
      RemoveEach(live, toDie + During(clearTick, live, 0.0, t0, |live|).deaths) == []
  {
    var live := objects + toSpawn + [clearer];
    assert live[|live| - 1].kind == SceneClearerKind;
    ClearingTickEmpties(clearTick, live, toDie, 0.0, t0);
  }

  /** What `Main` does with its arguments. */
  datatype Launch =
    | Playback(movie: string)
    | Game(settingsFile: string, loadSettings: bool, saveSettings: bool)

  const DefaultSettingsFile: string := "settings.cfg"
  const MovieExtension: string := ".srv3"

  predicate EndsWith(s: string, suffix: string) {
    |suffix| <= |s| && s[|s| - |suffix|..] == suffix
  }

  /**
   * `Main`: a first argument ending in `.srv3` is played back and nothing else
   * happens; otherwise the settings file (the argument, or `settings.cfg`) is
   * loaded when it exists, and after the game it is written only if it did not.
   * `existing` is the set of files that exist; the game itself writes only
   * `.srv3` files, so the file's existence is the same at both checks.
   */
  function Plan(args: seq<string>, existing: set<string>): (p: Launch)
    ensures p.Playback? <==> |args| > 0 && EndsWith(args[0], MovieExtension)
    ensures p.Playback? ==> p.movie == args[0]
    ensures p.Game? ==> p.settingsFile == (if |args| == 0 then DefaultSettingsFile else args[0])
    ensures p.Game? ==> (p.loadSettings <==> p.settingsFile in existing) && p.saveSettings == !p.loadSettings
  {
    var arg: Option<string> := if |args| == 0 then None else Some(args[0]);
    if arg.Some? && EndsWith(arg.value, MovieExtension) then Playback(arg.value)
    else
      var file := arg.GetOr(DefaultSettingsFile);
      Game(file, file in existing, file !in existing)
  }
}
