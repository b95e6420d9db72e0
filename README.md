# Spacerunner3 in Dafny

Spacerunner3 is a small C# arcade game. A triangular ship flies through an
endless field of asteroids and tries to get as far as it can. This project
models the game's core and proves properties of that model. It covers two
revisions of the source:

- The current revision, in the repository root:
  - the scene and its objects: `Scene`, `SceneClearer`, `Program.Reset`;
  - the camera and its origin shifts: `Camera`;
  - the player's ship, its line traces and its health: `Player`, `PlayerLineTrace`;
  - the asteroids and their spawner: `Asteroid`, `AsteroidManager`;
  - the distance tracker: `DistanceTracker`;
  - the body renderer: `PhysicsObject.Draw`;
  - the vector and point types: `Vector.cs`;
  - the SDL drawing front end that records every frame into a replayable movie: `Graphics` in `DisplayWindow.cs`.
- The earlier revision under `Spacerunner3/`, modelled in the `Legacy*` modules:
  - its scene, camera and distance tracker;
  - its reset protocol, which has no scene clearer;
  - its `PhysicsObject.cs`: the AABB-clipped renderer, the physics manager, the asteroid spawner that does not check for a null body, the 50-point line trace, and the player;
  - its reflection-driven `Settings` file with load and save.

Each source file becomes one module:

- `vectors`, `cameras`, `scenes` (with `SceneFacts`), `launcher`, `distances`,
  `traces`, `players`, `asteroids`, `asteroid_managers`, `physics_objects` and
  `recording` for the root files;
- `legacy_scenes`, `legacy_launcher`, `legacy_objects` and `legacy_settings`
  for `Spacerunner3/`;
- shared vocabulary in `wrappers` (Option/Result), `numerics`, `drawing`
  (colours, line calls, polylines, closed polygons) and `entities`.

Some of the source updates objects in place: the scene's lists, the camera, the
trace buffers, the recording stream and the settings object. These are Dafny
classes whose methods state their whole new state. Each method is proved
against a specification function, and the lemmas beside it state what the game
relies on:

- a clearing tick always empties the scene;
- an origin shift leaves every screen position and the tracked distance unchanged;
- over the reals, a recorded frame plays back as the commands that were drawn;
- saving the settings and loading them again gives back the same values;
- a rendering stops exactly at the first unknown shape.

Game objects are abstract `Entity` ids. The `Update` of an object not being
modelled is a `Behaviour` parameter: given the object, the live list, `dt` and
the camera's centre and velocity as the earlier updates of the pass left them,
it returns the spawn and death requests the object makes and what it does to
the camera: leave it, or set its centre and velocity and possibly shift the
origin. The player's own `Update` is modelled and produces exactly such a
request. The `OnDie` calls are reported as the sequence of objects notified,
and each object's module models what its own `OnDie` does.

## Model

| member | source | states |
|---|---|---|
| Vectors.OperatorsComponentwise | Vector.cs:16-24 | `+`, `-` and unary `-` act on each coordinate; `v * d` and `d * v` agree |
| Vectors.SubAddCancel | Vector.cs:16-24 | subtracting then adding the same vector, or the reverse, is the identity |
| Vectors.Length2 | Vector.cs:26 | the squared length is never negative |
| Vectors.LengthUnique | Vector.cs:28 | `Length` is determined by the vector: two non-negative roots of the same `Length2` are equal |
| Vectors.Wrap32 | Vector.cs:46-52 | unchecked `int` arithmetic: the result lies in the 32-bit range, is congruent to the true value modulo 2^32, and equals it when no overflow occurs |
| Vectors.PointOperatorsComponentwise | Vector.cs:46-52 | without overflow, the `Point` operators are componentwise sums and products, and `k * p == p * k` |
| Vectors.PointOf | Vector.cs:30 | `Vector2.Point` rounds each coordinate down to the integer below it |
| Vectors.PointVectorRoundTrip | Vector.cs:64 | `p.Vector.Point == p` for every point |
| Vectors.EqualityAgrees | Vector.cs:54-62 | `==` holds iff the points are equal and `!=` is its negation; `Equals` agrees with `==` on a boxed point and is false for null or any other object |
| Vectors.HashRespectsEquality | Vector.cs:60 | equal points have equal `GetHashCode`; the hash is symmetric in X and Y |
| Drawing.PolylineChained | PlayerLineTrace.cs:62-78 | `DrawLines` over n points draws n-1 segments, segment i joining point i to point i+1 |
| Drawing.ClosedEdgesLoop | PhysicsObject.cs:28-38 | a polygon outline is closed: each edge starts where the previous one ended, and the last edge returns to the first vertex |
| Cameras.RemoveLast | Camera.cs:21 | `-=` on the event removes one occurrence of the handler: one fewer entry and the same multiset minus that handler; an absent handler changes nothing |
| Cameras.Camera.constructor | Camera.cs:7-12 | the centre is zero, the multiplier is 1, the fixed size is the screen size, and there are no subscribers |
| Cameras.Camera.Subscribe | Camera.cs:21 | `+=` appends the handler; the pose is unchanged |
| Cameras.Camera.Unsubscribe | Camera.cs:21 | `-=` removes the last occurrence of the handler; the pose is unchanged |
| Cameras.Camera.OriginShift | Camera.cs:23-27 | every subscriber, in order, is notified with the old centre, and the centre becomes zero |
| Cameras.Camera.ResetOriginShift | Camera.cs:40-44 | the centre becomes zero and every subscriber is dropped |
| Cameras.TranslationInvariant | Camera.cs:29-36 | moving the camera and the point by the same vector leaves `Transform` unchanged |
| Cameras.CenterIsScreenMiddle | Camera.cs:29-36 | the camera centre is drawn at the middle of the screen |
| Cameras.ScaleIsHorizontalDisplacement | Camera.cs:38 | `Scale(d)` is the on-screen horizontal displacement of a world offset d |
| Scenes.RemoveFirst | Scene.cs:51 | `List.Remove` takes one occurrence out: the multiset loses exactly that element, and an absent element changes nothing |
| Scenes.IndexOf | Scene.cs:51 | the first index holding the element |
| Scenes.RemoveFirstAt | Scene.cs:51 | `Remove` deletes the first occurrence and keeps the order of the rest |
| Scenes.Drawable | Scene.cs:25 | `Drawables` holds exactly the drawable live objects |
| Scenes.Scene.constructor | Scene.cs:12-19 | a fresh camera at the origin; empty object, spawn and death lists; no keys pressed |
| Scenes.Scene.Spawn | Scene.cs:31 | the object is queued at the end of the spawn list and nothing else changes |
| Scenes.Scene.Die | Scene.cs:29 | the object is queued at the end of the death list and nothing else changes |
| Scenes.Scene.OnDie | Scene.cs:52 | the dying object's `OnDie`: a trace unsubscribes its handler, and no other object touches the camera's handlers |
| Scenes.Scene.Update | Scene.cs:33-56 | one tick: pending spawns are admitted after the live objects; each admitted object updates in order, seeing the camera as the earlier updates left it; the camera ends where the last move put it, and every origin shift is reported in order; every death queued before or during the tick is removed and notified in queue order; the death list ends empty and only trace deaths change the handler list |
| Scenes.Scene.Admit | Scene.cs:35-42 | pending spawns join the live list in order and the spawn list empties |
| Scenes.Scene.UpdateAll | Scene.cs:43-46 | the spawns and deaths requested during the pass are appended in object order; each object sees the camera as the earlier updates left it, the camera ends where the moves put it, and the origin shifts are reported in order; the live list and the handler list are unchanged |
| Scenes.PassStep | Scene.cs:43-46 | the pass over one more object adds that object's requests after the earlier ones, made with the camera as the earlier ones left it |
| Scenes.Scene.UpdateOne | Scene.cs:45 | one object's `Update`: the clearer queues every live object, any other object's requests are applied; the pass's tally advances by exactly that object's requests |
| Scenes.Scene.Apply | Player.cs:136-148 | the scene's side of one update: its spawns and deaths are queued in order; a camera move writes the centre and velocity and, when it shifts, runs `OriginShift`, whose vector is reported; the handler list is unchanged |
| Scenes.Scene.ProcessDeaths | Scene.cs:47-55 | each queued death, in order, removes one occurrence and notifies the object |
| Scenes.Scene.RemoveAndNotify | Scene.cs:51-52 | one death: `Remove` then `OnDie` |
| Scenes.Scene.DieNext | Scene.cs:49-53 | the death loop's step keeps "live list = initial minus the deaths so far" |
| Scenes.StepOfEach | Scene.cs:49-53 | processing one more death is one more `Remove` and one more `OnDie` |
| Scenes.ClearerUpdate | SceneClearer.cs:9-15 | the clearer queues every live object, itself included, for death |
| SceneFacts.RemoveEachMultiset | Scene.cs:47-55 | the survivors of the death loop are the live multiset minus the death multiset |
| SceneFacts.DeathsIncludeEach | Scene.cs:43-46 | every death an object requests during the pass is in the tick's death list |
| SceneFacts.ClearingTickEmpties | SceneClearer.cs:9-15 | a tick in which a clearer is live leaves no object alive, whatever the other objects do |
| SceneFacts.StillPassKeepsCamera | Scene.cs:43-46 | when no object moves the camera, the pass leaves its centre and velocity alone and shifts nothing |
| SceneFacts.AfterOnDieKeepsOtherHandlers | Scene.cs:47-55 | deaths leave the handlers of non-trace objects registered |
| SceneFacts.TraceDeathUnsubscribes | PlayerLineTrace.cs:80 | a dying trace takes exactly its own handler out of the camera |
| Launcher.Reset | Program.cs:8-28 | it throws, carrying the survivors, exactly when the clearing tick leaves an object, and then the registry, queues, camera and invocation list are as that tick left them; otherwise the camera is reset and the four objects of a new game are spawned and admitted, the new game's first tick starting from a zero centre and the velocity the clearing tick left; the origin shifts of both ticks are reported in order. The first tick's moves give the final centre and velocity. The pressed keys and the camera's size settings never change |
| Launcher.ClearPhase | Program.cs:15-16 | spawning a clearer and ticking once leaves exactly the objects that no death request covered. The spawn queue holds that tick's spawns and the death queue is empty. The camera centre, velocity and shifts are those of the clearing pass. Every handler of a dying object is dropped from the invocation list. Keys and size settings are unchanged |
| Launcher.StartPhase | Program.cs:22-27 | the camera is reset to the tracker's handler alone, and the manager, spawner, tracker and player are admitted in that order; the camera's centre and velocity end where the first tick's moves put them. Keys and size settings are unchanged |
| Launcher.Respawn | Program.cs:22-26 | the four objects are queued in order, and the camera is re-centred on zero keeping only the new tracker's handler. The registry, death queue, velocity, keys and size settings are unchanged |
| Launcher.ResetNeverThrows | Program.cs:15-20 | with a clearer, the emptiness test after the first tick never fails |
| Launcher.StillResetKeepsCamera | Program.cs:15-27 | with no object moving the camera, neither tick shifts the origin and the new game's camera centre stays at the origin |
| Launcher.Plan | Program.cs:30-65 | an argument ending in `.srv3` plays a movie; otherwise the settings file (the argument, or `settings.cfg`) is loaded when it exists, and saved exactly when it did not exist |
| Distances.FirstOfKind | DistanceTracker.cs:29 | `OfType<Player>().FirstOrDefault()`: the first live player, or none when there is no player |
| Distances.AbsolutePositionRebaseInvariant | DistanceTracker.cs:13-36 | an origin shift moves the body and the accumulated shift in opposite directions, so the absolute position is unchanged |
| Distances.DistanceTracker.constructor | DistanceTracker.cs:13-17 | zeroed state, with the tracker's shift handler appended to the camera's |
| Distances.DistanceTracker.OnOriginShift | DistanceTracker.cs:16 | the shift is added to the accumulated shift, and nothing else changes |
| Distances.DistanceTracker.Update | DistanceTracker.cs:27-36 | with a live player that has a body, the position becomes its absolute position, the distance becomes that position's length, and `dt` is added to the time; otherwise nothing changes; the distance stays non-negative and the time never decreases |
| Traces.RebaseComposes | PlayerLineTrace.cs:27-33 | two origin shifts compose, and the opposite shift undoes one |
| Traces.PushedShape | PlayerLineTrace.cs:82-95 | a push keeps the length, stores the new point in slot 0 and moves every other point one slot later |
| Traces.RebasePushCommute | PlayerLineTrace.cs:27-33 | shifting the history and then pushing a shifted point equals pushing and then shifting |
| Traces.CounterModBounds | PlayerLineTrace.cs:82-95 | the reduced counter lies in [0, 0.25) |
| Traces.RebaseInPlace | PlayerLineTrace.cs:27-33 | the in-place loop subtracts the shift from every point |
| Traces.ShiftHistory | PlayerLineTrace.cs:88-91 | the backward copy loop moves each point one slot later and keeps slot 0 |
| Traces.PlayerLineTrace.constructor | PlayerLineTrace.cs:17-25 | a zeroed ten-point history, with the trace's handler appended to the camera's |
| Traces.PlayerLineTrace.OnOriginShift | PlayerLineTrace.cs:27-33 | every point is moved by minus the shift |
| Traces.PlayerLineTrace.OnDie | PlayerLineTrace.cs:80 | the handler is unregistered; the pose is unchanged |
| Traces.PlayerLineTrace.Update | PlayerLineTrace.cs:82-95 | past 0.25 s the counter is reduced mod 0.25 and the position is pushed; a missing body throws after the history has already moved; below 0.25 s only the counter grows; the counter stays in [0, 0.25] |
| Traces.PlayerLineTrace.Draw | PlayerLineTrace.cs:62-78 | 11 slate-grey segments join future, current, history[0] … history[9]; a missing body throws |
| Traces.PlayerLineTrace.FillHistory | PlayerLineTrace.cs:62-78 | slot i+2 holds the screen point of history point i |
| Traces.Joined | PlayerLineTrace.cs:62-78 | `DrawLines` equals the polyline through the points |
| Players.ExhaustIsTriangle | Player.cs:59-76 | the exhaust is a closed red triangle |
| Players.ExhaustCorners | Player.cs:61-66 | the three corners are the exhaust's vertices |
| Players.ToScreen | Player.cs:67-71 | each corner is replaced by its screen position |
| Players.ClosedLoop | Player.cs:72-75 | the loop draws the closed polygon outline |
| Players.Deduction | Player.cs:38-44 | a collision with positive ship health never raises health |
| Players.Controls | Player.cs:101-133 | with a joystick, a forward axis never below zero drives thrust and exhaust, and the side axis drives the torque |
| Players.KeysActIndependently | Player.cs:112-133 | on the keyboard, thrust, right and left each add their own call; the force, torque and exhaust are exactly those of the pressed keys |
| Players.FollowIsConvex | Player.cs:134-143 | the camera's new centre is a convex combination of the old centre and the target, with weight dt/(1+dt) |
| Players.Player.constructor | Player.cs:18-36 | a yellow hull triangle, full health, no traces and no exhaust |
| Players.Player.OnCollision | Player.cs:38-44 | health drops by impulse² / ShipHealth and nothing else changes |
| Players.Player.Draw | Player.cs:48-79 | traces are made on the first call; then the exhaust when lit, the body, and the health arc; the arc is not drawn when an unknown shape throws |
| Players.Player.MakeTraces | Player.cs:50-58 | the first call makes three traces registered on the camera and asks for them to be spawned; later calls change nothing |
| Players.Player.DrawExhaust | Player.cs:59-76 | the drawn lines are the exhaust triangle |
| Players.Player.Update | Player.cs:81-150 | it spawns the pending traces, dies below zero health, and ignores dt <= 0; otherwise it applies the controls and moves the camera toward the target; past 100 units it shifts the origin; the centre always ends within 100 of the origin; the camera move it requests is present exactly when it is alive and dt > 0, describes the camera's new centre and velocity, and shifts exactly when the shift is broadcast, with the broadcast vector |
| Players.Player.ApplyControls | Player.cs:101-133 | the calls and the exhaust are those of `Controls` |
| Asteroids.CulledIsBox | Asteroid.cs:57-65 | an asteroid is culled iff it is more than 1.5 fixed sizes from the camera on either axis |
| Asteroids.AcceptedInRadius | Asteroid.cs:17-29 | every accepted vertex lies within the size radius |
| Asteroids.AcceptedAppend | Asteroid.cs:17-29 | rejection sampling over concatenated draw pairs concatenates |
| Asteroids.SampleVertices | Asteroid.cs:17-29 | the loop retries rejected pairs until it has numVerts vertices, each from its draw pair; it reports failure only when the draws run out, and it stops where `VerticesEnd` says |
| Asteroids.SampleDirection | Asteroid.cs:36-45 | the do-while returns the first pair in the unit disc, every pair before it being outside; it fails only when no pair qualifies, and it stops where `DirectionEnd` says |
| Asteroids.ScaledDiscBound | Asteroid.cs:36-45 | the initial speed is at most `AsteroidInitialVel` |
| Asteroids.Spin | Asteroid.cs:46-52 | the initial spin lies in [0, `AsteroidInitialRot`) |
| Asteroids.Asteroid.constructor | Asteroid.cs:13-53 | it stores the sampled size, vertices, body and velocities |
| Asteroids.Asteroid.Update | Asteroid.cs:57-65 | an asteroid asks to die exactly when it is culled, spawns nothing and leaves the camera alone |
| Asteroids.NewAsteroid | Asteroid.cs:13-53 | it reads one draw for the size, one for the vertex count, the vertex pairs, then the direction pairs and the spin draw when those are enabled, and fails exactly when they run out; the size is exp(variety·(u−½))·sizeParam; the vertex count comes from the second draw and every vertex lies within the radius; a white convex hull body; speed and spin are bounded, or zero when disabled |
| Asteroids.AsteroidEnd | Asteroid.cs:13-53 | the constructor reads at least the size and vertex-count draws and never past the end |
| AsteroidManagers.TrySpawnRoid | AsteroidManager.cs:8-24 | it spawns iff no asteroid body is within the spacing radius of the position |
| AsteroidManagers.StillNeverFires | AsteroidManager.cs:26-42 | a still camera or a non-positive dt never spawns |
| AsteroidManagers.AheadOffset | AsteroidManager.cs:32 | the spawn offset lies 1.2 screen sizes ahead, in the direction of travel |
| AsteroidManagers.SpreadOffset | AsteroidManager.cs:32 | the sideways offset is within 1.2 screen sizes |
| AsteroidManagers.HorizontalAhead | AsteroidManager.cs:29-34 | a horizontal candidate lies ahead along x and within the spread along y |
| AsteroidManagers.VerticalAhead | AsteroidManager.cs:36-41 | a vertical candidate lies ahead along y and within the spread along x |
| AsteroidManagers.Survivors | AsteroidManager.cs:8-24 | each spawned position is an attempted one, clear of every asteroid |
| AsteroidManagers.Update | AsteroidManager.cs:26-42 | a horizontal then a vertical attempt on one stream of draws, the vertical attempt reading after the horizontal one and after any asteroid it made; at most two attempts; the spawned positions are the clear attempts, and each new asteroid stands at its position |
| AsteroidManagers.Attempt | AsteroidManager.cs:29-41 | one attempt does what `TryAxis` says; the asteroid it makes stands at the spawned position |
| AsteroidManagers.TryAxis | AsteroidManager.cs:29-41 | an attempt reads its firing draw, then the spread draw when it fires, and stays within the draws |
| AsteroidManagers.TryAxisSpawnsClear | AsteroidManager.cs:8-24 | an attempt spawns exactly its candidate when that is clear; a silent attempt reads one draw, a blocked one two, a spawning one also the new asteroid's draws |
| AsteroidManagers.SurvivorsOfPair | AsteroidManager.cs:26-42 | two attempts are filtered independently |
| PhysicsObjects.Draw | PhysicsObject.cs:16-56 | a null body draws nothing; otherwise each fixture is drawn in the body's pen, or in white, stopping at the first unknown shape |
| PhysicsObjects.FailureSticks | PhysicsObject.cs:16-56 | after an exception no further fixture is drawn |
| PhysicsObjects.DrawFixture | PhysicsObject.cs:27-54 | a polygon fixture draws its closed outline, an edge fixture one segment, and a null shape nothing; any other shape, a circle included, is left to the caller, which throws `Unknown shape type` |
| PhysicsObjects.PolygonLines | PhysicsObject.cs:28-38 | the polygon loop draws its closed outline |
| PhysicsObjects.ShapeLinesShape | PhysicsObject.cs:27-54 | a polygon gives a closed outline through its screen vertices; an edge gives one line; an empty shape gives nothing; every line uses the pen |
| PhysicsObjects.KnownShapesDrawFully | PhysicsObject.cs:16-56 | without an unknown shape, drawing never throws |
| PhysicsObjects.WorldAfterDeath | PhysicsObject.cs:58-65 | a dying body is removed from the world and nothing else is; a null body changes nothing |
| Recordings.Encode | DisplayWindow.cs:66-75 | a record keeps the command's colour |
| Recordings.BlackClearIsEndOfFrame | DisplayWindow.cs:77-95 | a black `Clear` records exactly the end-of-frame marker |
| Recordings.EncodeAll | DisplayWindow.cs:66-75 | one record per command, in order |
| Recordings.Replay | DisplayWindow.cs:28-64 | playback consumes at most the available records, and all of them unless a frame ended |
| Recordings.ReplayStep | DisplayWindow.cs:45-61 | a non-marker record is decoded and playback continues |
| Recordings.FractionRoundTrip | DisplayWindow.cs:58-59 | over the reals, scaling a stored fraction back by the same width recovers the pixel coordinate, and a zero fraction means a zero coordinate; stored as a float32, a coordinate may come back one pixel lower |
| Recordings.DecodeEncode | DisplayWindow.cs:28-75 | over the reals, decoding a record of a recordable command gives back the command, and no such record looks like an end-of-frame marker |
| Recordings.FrameRoundTrip | DisplayWindow.cs:28-95 | over the reals, a recorded frame followed by its marker plays back as its commands and ends the frame |
| Recordings.Digits | DisplayWindow.cs:153 | the decimal digits of the index |
| Recordings.DigitsInjective | DisplayWindow.cs:153 | different indices give different digits |
| Recordings.SaveNameInjective | DisplayWindow.cs:151-155 | different indices give different file names |
| Recordings.SaveNamesCount | DisplayWindow.cs:151-155 | the first n indices give n distinct names, so the search terminates |
| Recordings.Graphics.constructor | DisplayWindow.cs:17-23 | an empty stream and the given reader |
| Recordings.Graphics.Clear | DisplayWindow.cs:77-87 | it reads the size, fills the surface, and records the colour while recording; the size must be positive only when it records |
| Recordings.Graphics.MarkEndOfFrame | DisplayWindow.cs:89-95 | it appends the end-of-frame marker while recording |
| Recordings.Graphics.Record | DisplayWindow.cs:66-75 | it appends one record with coordinates divided by the size |
| Recordings.Graphics.DrawLine | DisplayWindow.cs:97-126 | a segment is drawn iff an endpoint is on screen or it crosses an edge; it is recorded only when drawn, asked for, and recording |
| Recordings.Graphics.Line | DisplayWindow.cs:128 | the public `Line` records its visible segments |
| Recordings.Graphics.Arc | DisplayWindow.cs:130-143 | the arc adds only segments in its colour and records nothing |
| Recordings.Graphics.DrawRecordedFrame | DisplayWindow.cs:28-64 | without a reader it throws; otherwise it plays records up to the next marker at whatever size the renderer reports, zero included. It returns false at a marker and true at the end of the stream; a partial final record throws |
| Recordings.Graphics.PlayFrame | DisplayWindow.cs:36-63 | the playback loop draws exactly the decoded commands and advances the cursor by the records read |
| Recordings.Graphics.PlayNext | DisplayWindow.cs:45-61 | one record adds its decoded command to the surface |
| Recordings.Graphics.PlayRecord | DisplayWindow.cs:45-61 | a clear record clears and a line record draws an unrecorded line |
| Recordings.Graphics.SaveVideo | DisplayWindow.cs:145-162 | the chosen name is the first free one in `name`, `name_1`, …, and the whole stream is written |
| Recordings.Graphics.ResetVideo | DisplayWindow.cs:164 | the stream empties |
| LegacyScenes.ProjectAgrees | Spacerunner3/Scene.cs:97-104 | the old `Transform` equals the new camera's projection |
| LegacyScenes.CenterOnMiddle | Spacerunner3/Scene.cs:97-104 | the centre is drawn at the middle of the screen |
| LegacyScenes.ProjectTranslationInvariant | Spacerunner3/Scene.cs:97-104 | moving the camera and the point together leaves `Transform` unchanged |
| LegacyScenes.ScreenTranslationInvariant | Spacerunner3/Scene.cs:97-104 | the same for a whole lens |
| LegacyScenes.Camera.constructor | Spacerunner3/Scene.cs:75-80 | a zero centre, multiplier 1, the fixed size, and no subscribers |
| LegacyScenes.Camera.Subscribe | Spacerunner3/Scene.cs:89 | `+=` appends the handler |
| LegacyScenes.Camera.Unsubscribe | Spacerunner3/Scene.cs:89 | `-=` removes the last occurrence |
| LegacyScenes.Camera.OriginShift | Spacerunner3/Scene.cs:91-95 | the subscribers are notified with the old centre, and the centre becomes zero |
| LegacyScenes.Camera.ResetOriginShift | Spacerunner3/Scene.cs:106-110 | the centre becomes zero and the event becomes null |
| LegacyScenes.Camera.Transform | Spacerunner3/Scene.cs:97-104 | the result is the screen point of (x, y) |
| LegacyScenes.PassGathers | Spacerunner3/Scene.cs:54-60 | every request made during the pass is in the tick's totals |
| LegacyScenes.Scene.constructor | Spacerunner3/Scene.cs:17-24 | a fresh camera and empty lists |
| LegacyScenes.Scene.Drawables | Spacerunner3/Scene.cs:30 | exactly the drawable live objects |
| LegacyScenes.Scene.Die | Spacerunner3/Scene.cs:34-37 | queues the death and changes nothing else |
| LegacyScenes.Scene.Spawn | Spacerunner3/Scene.cs:39-42 | queues the spawn and changes nothing else |
| LegacyScenes.Scene.Update | Spacerunner3/Scene.cs:44-70 | admits the spawns; updates every object only when `physics`, each seeing the camera as the earlier updates left it; the camera ends where the moves put it and the shifts are reported in order; then removes and notifies every queued death |
| LegacyScenes.Scene.Admit | Spacerunner3/Scene.cs:46-53 | pending spawns join the live list |
| LegacyScenes.Scene.UpdateAll | Spacerunner3/Scene.cs:54-60 | the pass appends each object's requests and applies its camera moves in order; the live list and the handler list are unchanged |
| LegacyScenes.PassStep | Spacerunner3/Scene.cs:54-60 | the pass over one more object adds that object's requests after the earlier ones, made with the camera as the earlier ones left it |
| LegacyScenes.Scene.Apply | Spacerunner3/PhysicsObject.cs:371-383 | the requests' spawns and deaths are queued; a camera move writes the centre and velocity and, when it shifts, runs `OriginShift`, whose vector is reported |
| LegacyScenes.Scene.OnDie | Spacerunner3/Scene.cs:66 | only a dying trace changes the camera's handlers |
| LegacyScenes.Scene.RemoveAndNotify | Spacerunner3/Scene.cs:65-66 | one death: `Remove`, then `OnDie` |
| LegacyScenes.Scene.ProcessDeaths | Spacerunner3/Scene.cs:61-69 | every queued death in order, and the queue empties |
| LegacyScenes.Scene.DieNext | Spacerunner3/Scene.cs:63-67 | the loop step keeps "live list = initial minus the deaths so far" |
| LegacyScenes.DistanceTracker.constructor | Spacerunner3/Scene.cs:119-123 | zeroed state, with the handler appended to the camera |
| LegacyScenes.DistanceTracker.OnOriginShift | Spacerunner3/Scene.cs:122 | the shift accumulates |
| LegacyScenes.DistanceTracker.Update | Spacerunner3/Scene.cs:129-137 | with a live player, the distance is the length of its absolute position and the time grows by dt; otherwise nothing changes |
| LegacyScenes.DistanceSurvivesShift | Spacerunner3/Scene.cs:119-137 | an origin shift does not change the measured distance |
| LegacyLauncher.Reset | Spacerunner3/Program.cs:7-20 | throws exactly when some pending spawn is not matched by an already queued death; on a throw the camera centre is kept, and the handlers of the dropped objects are removed. Otherwise the four objects of a new game are live, with the camera re-centred. The velocity, keys and screen settings are unchanged |
| LegacyLauncher.ClearPhase | Spacerunner3/Program.cs:9-11 | survivors = live + pending − (queued deaths + live). The camera is untouched apart from the removed handlers |
| LegacyLauncher.StartPhase | Spacerunner3/Program.cs:14-19 | the camera is re-centred, and the four objects are live in order. The velocity, keys and screen settings are unchanged |
| LegacyLauncher.QueueAll | Spacerunner3/Program.cs:9-10 | every live object is queued for death, in order |
| LegacyLauncher.ResetFailsExactly | Spacerunner3/Program.cs:9-13 | the emptiness test fails iff the pending spawns are not covered by the queued deaths (as multisets) |
| LegacyLauncher.NothingPendingResets | Spacerunner3/Program.cs:9-13 | with nothing pending, Reset never throws |
| LegacyLauncher.Plan | Spacerunner3/Program.cs:22-41 | the settings file is the argument or `settings.xml`; it is loaded when it exists, and always saved |
| LegacyObjects.FailsExactly | Spacerunner3/PhysicsObject.cs:29-92 | drawing throws iff some fixture has an unknown shape and passes the on-screen test |
| LegacyObjects.OffScreenDrawsNothing | Spacerunner3/PhysicsObject.cs:40-55 | fixtures that are all off screen draw nothing and never throw |
| LegacyObjects.DrawTranslationInvariant | Spacerunner3/PhysicsObject.cs:29-92 | moving the body and the camera together draws the same calls |
| LegacyObjects.DrawBody | Spacerunner3/PhysicsObject.cs:29-92 | a null body draws nothing; otherwise the visible fixtures are drawn in the pen, stopping at the first exception |
| LegacyObjects.Visible | Spacerunner3/PhysicsObject.cs:40-53 | the proxy loop stops at the first AABB that meets the clip bounds |
| LegacyObjects.DrawShape | Spacerunner3/PhysicsObject.cs:57-90 | polygon, edge, circle, or the unknown-shape exception |
| LegacyObjects.World.constructor | Spacerunner3/PhysicsObject.cs:107 | an empty world |
| LegacyObjects.Statics.constructor | Spacerunner3/PhysicsObject.cs:23 | the static world starts null |
| LegacyObjects.NewPhysicsManager | Spacerunner3/PhysicsObject.cs:104-108 | the world is created only when there is none |
| LegacyObjects.StepWorld | Spacerunner3/PhysicsObject.cs:112-115 | one step of length dt, with the bodies unchanged |
| LegacyObjects.OnDie | Spacerunner3/PhysicsObject.cs:94-99 | the body is removed from the world, if there is one |
| LegacyObjects.AsteroidUpdate | Spacerunner3/PhysicsObject.cs:208-214 | an asteroid dies exactly when it is culled, and leaves the camera alone |
| LegacyObjects.FirstStop | Spacerunner3/PhysicsObject.cs:124-131 | the loop stops at an asteroid |
| LegacyObjects.TrySpawnRoid | Spacerunner3/PhysicsObject.cs:120-134 | spawns when the scan finds no close asteroid; a null asteroid body reached by the scan throws |
| LegacyObjects.SpawnRuleWithBodies | Spacerunner3/PhysicsObject.cs:120-134 | when every asteroid has a body, the old rule equals the new clearance rule |
| LegacyObjects.RolloverBounds | Spacerunner3/PhysicsObject.cs:445-456 | the reduced counter lies in [0, 0.125) |
| LegacyObjects.TraceSurvivesShift | Spacerunner3/PhysicsObject.cs:405-438 | after an origin shift the trace draws the same screen points |
| LegacyObjects.LineTrace.constructor | Spacerunner3/PhysicsObject.cs:395-403 | a zeroed 50-point history, with the handler registered |
| LegacyObjects.LineTrace.OnOriginShift | Spacerunner3/PhysicsObject.cs:405-409 | every point is moved by minus the shift |
| LegacyObjects.LineTrace.OnDie | Spacerunner3/PhysicsObject.cs:440-443 | the handler is unregistered |
| LegacyObjects.LineTrace.Update | Spacerunner3/PhysicsObject.cs:445-456 | past 0.125 s the counter is reduced and the position is pushed; the counter stays in [0, 0.125] |
| LegacyObjects.LineTrace.Draw | Spacerunner3/PhysicsObject.cs:425-438 | one `DrawLines` through future, current and the 50 history points |
| LegacyObjects.SmoothedIsFollow | Spacerunner3/PhysicsObject.cs:371-376 | the old damping formula equals the new camera follow |
| LegacyObjects.ExhaustAgrees | Spacerunner3/PhysicsObject.cs:306-320 | the old exhaust polygon, rounded to pixels, is the new red exhaust triangle |
| LegacyObjects.ExhaustToScreen | Spacerunner3/PhysicsObject.cs:314-318 | each corner is replaced by its screen position |
| LegacyObjects.Player.constructor | Spacerunner3/PhysicsObject.cs:265-283 | a yellow hull triangle, full health, no traces |
| LegacyObjects.Player.OnCollision | Spacerunner3/PhysicsObject.cs:285-291 | health drops by impulse² / ShipHealth |
| LegacyObjects.Player.MakeTraces | Spacerunner3/PhysicsObject.cs:297-305 | the first call makes three registered traces and asks for them to be spawned |
| LegacyObjects.Player.Draw | Spacerunner3/PhysicsObject.cs:295-326 | traces, then the exhaust polygon when lit, the body, and the health arc sweeping health·360°; no arc after an exception |
| LegacyObjects.Player.Update | Spacerunner3/PhysicsObject.cs:328-384 | spawns the traces, dies below zero health, applies the controls, and follows the target with the camera, shifting the origin past 100; the camera move it requests is present exactly when it is alive, describes the camera's new centre and velocity, and shifts exactly when the shift is broadcast |
| LegacySettings.InstanceFieldsValid | Spacerunner3/Settings.cs:13-38 | the saved fields have distinct plain names, and the defaults have their declared types |
| LegacySettings.Defaults | Spacerunner3/Settings.cs:40-68 | the default map has a key for every field and no other |
| LegacySettings.DefaultsHold | Spacerunner3/Settings.cs:40-68 | each field starts with its declared default, of its own type |
| LegacySettings.TrimStart | Spacerunner3/Settings.cs:76 | the result never starts with white space |
| LegacySettings.TrimEnd | Spacerunner3/Settings.cs:76 | the result is a prefix that never ends with white space |
| LegacySettings.Trim | Spacerunner3/Settings.cs:76 | the result has no white space at either end |
| LegacySettings.TrimOfTrimmed | Spacerunner3/Settings.cs:76 | trimming is idempotent |
| LegacySettings.TrimPadded | Spacerunner3/Settings.cs:76 | trimming removes exactly the surrounding blanks |
| LegacySettings.IndexOf | Spacerunner3/Settings.cs:79 | the first '=' or −1 exactly when there is none |
| LegacySettings.Lookup | Spacerunner3/Settings.cs:87 | `GetField` finds a field iff one has that name, with its type |
| LegacySettings.FieldTypeOf | Spacerunner3/Settings.cs:11 | `Grab` is found with a type that no branch accepts |
| LegacySettings.LookupFinds | Spacerunner3/Settings.cs:87 | every declared field is found with its own type |
| LegacySettings.Parse | Spacerunner3/Settings.cs:98-121 | a parsed value has the field's type; `Grab` never parses; each of the bool, int, float, double and scancode branches succeeds exactly when its `TryParse` (or a known scancode) does, and stores the value it parsed |
| LegacySettings.LineEffect | Spacerunner3/Settings.cs:76-121 | a line changes only the field it names, never `Grab`, with a value of that field's type |
| LegacySettings.LoadAllWellTyped | Spacerunner3/Settings.cs:70-124 | loading keeps every field well typed |
| LegacySettings.UntouchedKept | Spacerunner3/Settings.cs:70-124 | lines that do not name a key keep its value |
| LegacySettings.UnassignedFieldKept | Spacerunner3/Settings.cs:70-124 | a field not named in the file keeps its default |
| LegacySettings.IgnoredLines | Spacerunner3/Settings.cs:77-121 | blank, comment, no-'=', unknown-key, `Grab` and bad-value lines change nothing |
| LegacySettings.LaterEffectWins | Spacerunner3/Settings.cs:74-122 | a later effect on the same key overrides an earlier one |
| LegacySettings.LaterLineWins | Spacerunner3/Settings.cs:74-122 | the last valid assignment of a field wins |
| LegacySettings.SaveLines | Spacerunner3/Settings.cs:140-144 | one `name = value` line per field, in order |
| LegacySettings.SavedLineSplits | Spacerunner3/Settings.cs:76-86 | a saved line splits back into its name and value |
| LegacySettings.SavedLineEffect | Spacerunner3/Settings.cs:126-138 | loading a saved line assigns the saved value to its field |
| LegacySettings.SaveLoadRoundTrip | Spacerunner3/Settings.cs:70-144 | loading the saved lines over the defaults gives back every value |
| LegacySettings.LoadLines | Spacerunner3/Settings.cs:74-122 | the loop computes the fold of the line effects |
| LegacySettings.SaveFields | Spacerunner3/Settings.cs:142 | the contents are the saved lines |
| LegacySettings.Settings.constructor | Spacerunner3/Settings.cs:40-68 | the values are the well-typed defaults |
| LegacySettings.Settings.Load | Spacerunner3/Settings.cs:70-124 | a new settings object holding the defaults overlaid by the file's lines in order, every field keeping its type |
| LegacySettings.Settings.Save | Spacerunner3/Settings.cs:140-144 | the file holds the saved lines |
| LegacySettings.SettingsReload | Spacerunner3/Settings.cs:70-144 | for the game's settings, save then load is the identity |

## Left out

- SDL and WinForms windowing, event loops, the `MovieWindow`, `DisplayWindow.Run` and `FormPaint` (DisplayWindow.cs:166-335): only the `Graphics` recorder is modelled.
- JoystickManager.cs, Util.cs, PhysicsManager.cs and Spacerunner3/DisplayWindow.cs are not part of this model. The joystick's axes are a parameter.
- Farseer physics internals: `World.Step`, contacts, `GetWorldPoint`, the convex hull and `LineIntersect` are parameters or abstract records of the calls made.
- Floating point: doubles and floats are reals, and the float constants are their exact binary values. `sqrt`, `exp`, `sin` and `cos` are parameters. Overflow to infinity and NaN are not modelled.
- The NaN check that throws at Player.cs:137-140 and Spacerunner3/PhysicsObject.cs:374-375 is not modelled, since reals have no NaN.
- Entities.Behaviour: an object's requests come from its arguments alone (the object, the live list, `dt` and the camera). An object listed twice in the live list would make the same requests twice. A stateful C# object, such as a `Player` that clears its pending traces after its first `Update` (Player.cs:83-91), would not. The game never spawns one object twice.
- `Util.rand` draws are a parameter sequence: each `NextDouble` call reads the next position, and `Next(MinVerts, MaxVerts)` reads one position that the parameter `vertsOf` turns into a vertex count. The rejection loops report failure when the draws run out.
- Recordings.FractionRoundTrip, Recordings.DecodeEncode, Recordings.FrameRoundTrip: exact over the reals only. `Record` stores `(float)x / width` as a float32 and playback multiplies by the width and floors (DisplayWindow.cs:58-60, 71-74; Vector.cs:30), so a coordinate may come back one pixel lower (251 at width 1000, for example).
- Vectors.PointOf: floors to an unbounded integer; the `(int)` conversion of a coordinate outside the 32-bit range (Vector.cs:30) is not modelled.
- Launcher.Plan: the `.srv3` test is a plain suffix comparison; the culture-sensitive matching of `string.EndsWith(string)` is not modelled.
- LegacySettings.SaveLines: assumes that `GetFields()` returns the fields in declaration order, which .NET does not guarantee.
- A legacy fixture with a null shape is not modelled: with a proxy it throws in `ComputeAABB` before the on-screen test (Spacerunner3/PhysicsObject.cs:40-53).
- File I/O and console output are not modelled: `Console.WriteLine` in Program.cs:10-14, Settings.cs and `DistanceTracker.OnDie`, and `File.Exists` (a set of names).
- The distance tracker's text `Draw` and `Describe` formatting are not modelled: DistanceTracker.cs:38-70 and Spacerunner3/Scene.cs:139-150.
- LegacyObjects.Player.Draw: the health percentage string (Spacerunner3/PhysicsObject.cs:323-325) is not drawn in the model.
- The legacy `Asteroid` constructor (Spacerunner3/PhysicsObject.cs:164-204) and the legacy `AsteroidManager.Update` (136-152) are the same code as the root ones, which `Asteroids.NewAsteroid` and `AsteroidManagers.Update` model. The legacy spawn test differs and is `LegacyObjects.TrySpawnRoid`.
- Recordings.Graphics.Line, Recordings.Graphics.Clear, Recordings.Graphics.MarkEndOfFrame: each requires a positive renderer size only when it would record. `Record` divides by the size in float32, and a zero size gives infinite or NaN fractions, which reals cannot express. Playback never records, so it has no size requirement.
- Cameras and LegacyScenes.Camera.Transform: require a non-zero size and screen width. With a zero size, the division in `Transform` gives an infinite or NaN coordinate, which reals cannot express.
- LegacyObjects.Player.Update: requires dt > 0. The earlier revision has no dt guard, and `1 / (float)dt` is infinite at dt = 0.
- LegacySettings.SaveLoadRoundTrip: assumes that parsing the printed text of a value gives the value back and that the printed text has no surrounding blanks. These are properties of .NET's `ToString`/`TryParse`, which the model takes as parameters.
- The earlier `Reset` has no scene clearer, so objects still pending spawn survive the clearing tick and make it throw. This behaviour is modelled, not corrected (`LegacyLauncher.ResetFailsExactly`).
