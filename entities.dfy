/**
 * The objects a scene holds (`IObject`), seen from the registry: an object is an
 * identity of a known concrete class, and one `Update` call of it is summed up by
 * the `Spawn` and `Die` requests it issues and what it does to the camera.
 */
module Entities {
  import opened Vectors

  /** The concrete classes that implement `IObject`. */
  datatype Kind =
    | SceneClearerKind
    | PhysicsManagerKind
    | AsteroidManagerKind
    | DistanceTrackerKind
    | PlayerKind
    | PlayerLineTraceKind
    | AsteroidKind

  /** An object reference: its class and an identity that tells instances apart. */
  datatype Entity = Entity(kind: Kind, uid: nat)

  /**
   * `IDrawable`: every `PhysicsObject` subclass, `PlayerLineTrace` and
   * `DistanceTracker` are drawable; `AsteroidManager` implements `IObject` only.
   */
  predicate IsDrawable(e: Entity) {
    e.kind != AsteroidManagerKind
  }

  /**
   * `PhysicsObject` subclasses; their inherited `OnDie` removes the body (if any)
   * from the physics world.
   */
  predicate IsPhysicsObject(e: Entity) {
    e.kind in {SceneClearerKind, PhysicsManagerKind, PlayerKind, AsteroidKind}
  }

  /** The two camera fields an `Update` call may read and write: `Center` and `CenterVelocity`. */
  datatype Track = Track(center: Vec2, velocity: Vec2)

  /**
   * What one `Update` call does to the camera: nothing, or a new `Center` and
   * `CenterVelocity`, followed when `shift` holds by `OriginShift()`, which hands
   * the new centre to every subscriber and then zeroes it.
   */
  datatype CameraMove = Keep | Move(center: Vec2, velocity: Vec2, shift: bool)

  /** What one `Update` call asks of the scene: `Spawn` and `Die` calls, each list in call order, and its camera move. */
  datatype Requests = Requests(spawns: seq<Entity>, deaths: seq<Entity>, move: CameraMove)

  const NoRequests: Requests := Requests([], [], Keep)

  /** The camera fields after a move. */
  function Moved(t: Track, m: CameraMove): Track {
    match m
    case Keep => t
    case Move(c, v, shift) => Track(if shift then Zero else c, v)
  }

  /**
   * The effect of a run of `Update` calls: the spawn and death requests in call
   * order, the camera fields at the end, and the vector of each origin shift, in order.
   */
  datatype PassResult = PassResult(spawns: seq<Entity>, deaths: seq<Entity>, track: Track, shifts: seq<Vec2>)

  /** A run of calls followed by one more call that made the requests `r`. */
  function Then(p: PassResult, r: Requests): PassResult {
    var shifts := if r.move.Move? && r.move.shift then p.shifts + [r.move.center] else p.shifts;
    PassResult(p.spawns + r.spawns, p.deaths + r.deaths, Moved(p.track, r.move), shifts)
  }

  /**
   * The `Update` of an object whose body is not part of this model: given the object,
   * the live `Objects` list it may inspect, `dt` and the camera fields as they stand
   * when it is called, the requests it issues. The camera's size and screen scale do
   * not change during a tick; a behaviour built for that tick reads them as constants.
   */
  type Behaviour = (Entity, seq<Entity>, real, Track) -> Requests

  /** Every object leaves the camera alone when updated with this `dt`. */
  ghost predicate KeepsCamera(beh: Behaviour, dt: real) {
    forall e, live, t :: beh(e, live, dt, t).move.Keep?
  }
}
