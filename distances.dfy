/** DistanceTracker.cs: how far the player has travelled from the original origin. */
module Distances {
  import opened Wrappers
  import opened Vectors
  import opened Entities
  import opened Cameras

  /** `Objects.OfType<T>().FirstOrDefault()`: the first live object of the given class, if any. */
  function FirstOfKind(live: seq<Entity>, kind: Kind): (r: Option<Entity>)
    ensures r.Some? ==> r.value.kind == kind
    ensures r.Some? ==> exists k :: 0 <= k < |live| && live[k] == r.value && (forall j :: 0 <= j < k ==> live[j].kind != kind)
    ensures r.None? <==> forall e :: e in live ==> e.kind != kind
  {
    if |live| == 0 then None
    else if live[0].kind == kind then Some(live[0])
    else
      var rest := FirstOfKind(live[1..], kind);
      assert forall e :: e in live ==> e == live[0] || e in live[1..];
      if rest.Some? then
        var k :| 0 <= k < |live[1..]| && live[1..][k] == rest.value
          && (forall j :: 0 <= j < k ==> live[1..][j].kind != kind);
        assert live[k + 1] == rest.value;
        rest
      else
        rest
  }

  /** The player's absolute position: its body position in the current frame plus every shift so far. */
  function AbsolutePosition(bodyPos: Vec2, originShift: Vec2): Vec2 {
    Add(bodyPos, originShift)
  }

  /** A rebase moves the body by `-s` and the accumulated shift by `+s`; the absolute position does not move. */
  lemma AbsolutePositionRebaseInvariant(bodyPos: Vec2, originShift: Vec2, s: Vec2)
    ensures AbsolutePosition(Sub(bodyPos, s), Add(originShift, s)) == AbsolutePosition(bodyPos, originShift)
  {
  }

  class DistanceTracker {
    const self: Entity
    var originShift: Vec2
    var player: Vec2
    var distance: real
    var time: real

    /** Registers a handler that adds each shift to `_originShift`. */
    constructor(camera: Camera, id: Entity)
      modifies camera
      ensures self == id && originShift == Zero && player == Zero && distance == 0.0 && time == 0.0
      ensures camera.subscribers == old(camera.subscribers) + [ShiftHandler(id)]
      ensures camera.Pose() == old(camera.Pose())
    {
      self := id;
      originShift := Zero;
      player := Zero;
      distance := 0.0;
      time := 0.0;
      camera.Subscribe(ShiftHandler(id));
    }

    /** The registered lambda `shift => _originShift += shift`. */
    method OnOriginShift(shift: Vec2)
      modifies this
      ensures originShift == Add(old(originShift), shift)
      ensures player == old(player) && distance == old(distance) && time == old(time)
    {
      originShift := Add(originShift, shift);
    }

    /**
     * With a live `Player` whose body is present, records its absolute position,
     * that position's length and the elapsed time; otherwise changes nothing.
     * `bodyPosition` gives a player's body position (None for a null body);
     * `length` is `Math.Sqrt` of `Length2`.
     */
    method Update(dt: real, live: seq<Entity>, bodyPosition: Entity -> Option<Vec2>, length: Vec2 -> real)
      requires forall v :: IsLengthOf(length(v), v)
      modifies this
      ensures var p := FirstOfKind(live, PlayerKind);
        if p.Some? && bodyPosition(p.value).Some? then
          && player == AbsolutePosition(bodyPosition(p.value).value, old(originShift))
          && IsLengthOf(distance, player)
          && time == old(time) + dt
        else
          player == old(player) && distance == old(distance) && time == old(time)
      ensures originShift == old(originShift)
      ensures old(distance) >= 0.0 ==> distance >= 0.0
      ensures dt >= 0.0 ==> time >= old(time)
    {
      var p := FirstOfKind(live, PlayerKind);
      if p.Some? && bodyPosition(p.value).Some? {
        player := Add(bodyPosition(p.value).value, originShift);
        distance := length(player);
        time := time + dt;
      }
    }
  }
}
