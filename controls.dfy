/**
 * The camera motion controller of `CustomControls`: a mutable state bag
 * updated in place by keyboard, pointer and touch handlers and by a
 * self-rescheduling per-frame tick that turns held keys into motion,
 * stops at walls and clamps the pitch.
 *
 * Positions, velocities and angles are `real`. The floating-point vector
 * physics that needs a square root (normalising the target direction, the
 * length of the velocity) enters as parameters whose defining equations are
 * preconditions. Ray tests against the cached walls are `Ray` oracles, one
 * per probe direction.
 */
module Controls {
  import opened Wrappers
  import opened Strings
  import opened Geometry
  import opened Scene

  const WallCacheInterval := 5000
  const PointerMoveInterval := 16
  const PublishInterval := 100
  /** A swipe must cover more than 50 px ... */
  const SwipeMinDistance: real := 50.0
  /** ... in less than 300 ms. */
  const SwipeMaxTime := 300
  const Sensitivity: real := 0.0015
  /** Pitch change per tick while Q or E is held. */
  const PitchSpeed: real := 0.005
  const MinZoom: real := 0.5
  const MaxZoom: real := 2.0
  const PinchZoomFactor: real := 0.005
  const Acceleration: real := 0.05
  const Damping: real := 0.85
  const MaxSpeed: real := 0.25
  /** Below this squared speed the tick neither checks for collisions nor moves. */
  const MoveThresholdSq: real := 0.001
  /** Added to the speed to get the distance the probes look ahead. */
  const CollisionMargin: real := 0.4

  type PositiveReal = r: real | r > 0.0 witness 1.0

  /** The pitch limit, pi/2 - 0.1; left abstract (positive) since pi is not rational. */
  const MaxPhi: PositiveReal

  /** `Math.max(-maxPhi, Math.min(maxPhi, phi))`. */
  function ClampPitch(phi: real): (r: real)
    ensures -(MaxPhi as real) <= r <= MaxPhi as real
    ensures -(MaxPhi as real) <= phi <= MaxPhi as real ==> r == phi
  {
    Clamp(phi, -(MaxPhi as real), MaxPhi as real)
  }

  // ------------------------------------------------------------------- keys

  /** `controlsRef.current.keys`: key identifier to held flag; absent means not held. */
  type KeyMap = map<string, bool>

  /** The keys whose key-down has its default action prevented. */
  const ControlKeys: seq<string> :=
    ["w", "a", "s", "d", "q", "e", "ArrowUp", "ArrowDown", "ArrowLeft", "ArrowRight"]

  predicate Held(keys: KeyMap, k: string) {
    k in keys && keys[k]
  }

  /** `Object.values(keys).some(pressed => pressed)`. */
  predicate AnyHeld(keys: KeyMap) {
    exists k :: k in keys && keys[k]
  }

  /**
   * The key map after a key-down of `key`: held under the raw and the
   * lower-cased identifier, every other entry as it was.
   */
  function Press(keys: KeyMap, key: string): (r: KeyMap)
    ensures Held(r, key) && Held(r, ToLower(key))
    ensures r.Keys == keys.Keys + {key, ToLower(key)}
    ensures forall k :: k in keys && k != key && k != ToLower(key) ==> r[k] == keys[k]
  {
    keys[key := true][ToLower(key) := true]
  }

  /**
   * The key map after a key-up of `key`: released (present and false) under
   * both identifiers, every other entry as it was.
   */
  function Release(keys: KeyMap, key: string): (r: KeyMap)
    ensures key in r && !r[key] && ToLower(key) in r && !r[ToLower(key)]
    ensures r.Keys == keys.Keys + {key, ToLower(key)}
    ensures forall k :: k in keys && k != key && k != ToLower(key) ==> r[k] == keys[k]
  {
    keys[key := false][ToLower(key) := false]
  }

  /** Releasing the key just pressed leaves nothing held that was not held before. */
  lemma ReleaseUndoesPress(keys: KeyMap, key: string)
    ensures Held(Press(keys, key), key) && Held(Press(keys, key), ToLower(key))
    ensures !Held(Release(Press(keys, key), key), key)
    ensures !Held(Release(Press(keys, key), key), ToLower(key))
    ensures !AnyHeld(keys) ==> !AnyHeld(Release(Press(keys, key), key))
  {
    var m := Release(Press(keys, key), key);
    if AnyHeld(m) {
      var k :| k in m && m[k];
      assert k != key && k != ToLower(key);
      assert k in keys && keys[k];
    }
  }

  /**
   * A key pressed as "W" (with Shift) and released as "w" stays held under
   * "W", so some key is still held and each tick requests the next frame;
   * the direction asked for is the one with "w" released, since "W" drives nothing.
   */
  lemma ShiftedReleaseLeavesKeyHeld(keys: KeyMap)
    ensures AnyHeld(Release(Press(keys, "W"), "w"))
    ensures TargetSigns(Release(Press(keys, "W"), "w")) == TargetSigns(keys[("w") := false])
  {
    assert ToLower("W") == "w";
    assert ToLower("w") == "w";
    var m := Release(Press(keys, "W"), "w");
    assert "W" in m && m["W"];
  }

  // -------------------------------------------------------- target direction

  /** Signs of the target motion: +1 forward / right, -1 back / left, 0 none. */
  datatype Signs = Signs(forward: int, strafe: int)

  function Indicator(b: bool): int {
    if b then 1 else 0
  }

  /**
   * Direction asked for by the held keys; W/S and the up/down arrows drive,
   * A/D and left/right strafe. Each sign is -1, 0 or +1, and opposite keys cancel.
   */
  function TargetSigns(keys: KeyMap): (s: Signs)
    ensures -1 <= s.forward <= 1 && -1 <= s.strafe <= 1
    ensures s.forward == 1 <==> (Held(keys, "w") || Held(keys, "ArrowUp")) && !(Held(keys, "s") || Held(keys, "ArrowDown"))
    ensures s.forward == -1 <==> (Held(keys, "s") || Held(keys, "ArrowDown")) && !(Held(keys, "w") || Held(keys, "ArrowUp"))
    ensures s.strafe == 1 <==> (Held(keys, "d") || Held(keys, "ArrowRight")) && !(Held(keys, "a") || Held(keys, "ArrowLeft"))
    ensures s.strafe == -1 <==> (Held(keys, "a") || Held(keys, "ArrowLeft")) && !(Held(keys, "d") || Held(keys, "ArrowRight"))
  {
    Signs(Indicator(Held(keys, "w") || Held(keys, "ArrowUp")) - Indicator(Held(keys, "s") || Held(keys, "ArrowDown")),
          Indicator(Held(keys, "d") || Held(keys, "ArrowRight")) - Indicator(Held(keys, "a") || Held(keys, "ArrowLeft")))
  }

  /** The un-normalised target: the forward and right vectors weighted by the signs. */
  function RawTarget(signs: Signs, forward: Vec3, right: Vec3): Vec3 {
    Add(Scale(forward, signs.forward as real), Scale(right, signs.strafe as real))
  }

  /**
   * The target velocity: the raw target rescaled by `scale` (the caller's
   * `acceleration / length`) when it is not zero, zero otherwise.
   */
  function TargetVelocity(signs: Signs, forward: Vec3, right: Vec3, scale: real): Vec3 {
    var raw := RawTarget(signs, forward, right);
    if LengthSq(raw) > 0.0 then Scale(raw, scale) else Zero
  }

  /** Damp the current velocity and add the target. */
  function Accelerate(velocity: Vec3, target: Vec3): Vec3 {
    Add(Scale(velocity, Damping), target)
  }

  /** With no direction asked for, the target is zero and the velocity is only damped. */
  lemma NoDirectionOnlyDamps(keys: KeyMap, velocity: Vec3, forward: Vec3, right: Vec3, scale: real)
    requires TargetSigns(keys) == Signs(0, 0)
    ensures TargetVelocity(TargetSigns(keys), forward, right, scale) == Zero
    ensures Accelerate(velocity, TargetVelocity(TargetSigns(keys), forward, right, scale)) == Scale(velocity, Damping)
  {
    var raw := RawTarget(TargetSigns(keys), forward, right);
    assert raw == Zero;
  }

  /** `velocity.multiplyScalar(maxSpeed / speed)` when `speed` exceeds the maximum. */
  function LimitSpeed(velocity: Vec3, speed: real): Vec3 {
    if speed > MaxSpeed then Scale(velocity, MaxSpeed / speed) else velocity
  }

  /** The pitch change Q and E ask for in one frame; both together cancel. */
  function PitchStep(keys: KeyMap): (r: real)
    ensures r == 0.0 <==> (Held(keys, "q") <==> Held(keys, "e"))
    ensures r > 0.0 <==> Held(keys, "q") && !Held(keys, "e")
  {
    (if Held(keys, "q") then PitchSpeed else 0.0) - (if Held(keys, "e") then PitchSpeed else 0.0)
  }

  /** The velocity after one tick's damping, acceleration and speed limit. */
  function NextVelocity(velocity: Vec3, keys: KeyMap, forward: Vec3, right: Vec3, targetScale: real, speed: real): Vec3 {
    LimitSpeed(Accelerate(velocity, TargetVelocity(TargetSigns(keys), forward, right, targetScale)), speed)
  }

  /** Speed after the limit, given the speed before it. */
  function LimitedSpeed(speed: real): real {
    if speed > MaxSpeed then MaxSpeed else speed
  }

  // ------------------------------------------------------------------ swipes

  function Abs(x: real): real {
    if x < 0.0 then -x else x
  }

  /**
   * The key a one-finger swipe presses: more than 50 px (compared squared)
   * within 300 ms, along the dominant axis; a tie counts as vertical.
   */
  function SwipeKey(dx: real, dy: real, elapsed: int): (r: Option<string>)
    ensures r.Some? <==> dx * dx + dy * dy > SwipeMinDistance * SwipeMinDistance && elapsed < SwipeMaxTime
    ensures r.Some? ==> r.value in ["w", "a", "s", "d"]
    ensures r.Some? ==> (r.value in ["a", "d"] <==> Abs(dx) > Abs(dy))
  {
    if dx * dx + dy * dy > SwipeMinDistance * SwipeMinDistance && elapsed < SwipeMaxTime then
      if Abs(dx) > Abs(dy) then Some(if dx > 0.0 then "d" else "a")
      else Some(if dy > 0.0 then "s" else "w")
    else None
  }

  /**
   * A swipe moves the camera along its dominant axis: right/left swipes
   * strafe right/left, and a swipe down the screen drives backward, up drives forward.
   */
  lemma SwipeDirection(dx: real, dy: real, elapsed: int)
    ensures SwipeKey(dx, dy, elapsed).Some? ==>
              var s := TargetSigns(map[SwipeKey(dx, dy, elapsed).value := true]);
              && (Abs(dx) > Abs(dy) ==> s == Signs(0, if dx > 0.0 then 1 else -1))
              && (Abs(dx) <= Abs(dy) ==> s == Signs(if dy > 0.0 then -1 else 1, 0))
  {
  }

  // --------------------------------------------------------------- collision

  /** Some probe ray meets a wall nearer than `distance`; so there is a probe and a wall. */
  predicate Blocked(walls: seq<SceneObject>, probes: seq<Ray>, distance: real)
    ensures Blocked(walls, probes, distance) ==> probes != [] && walls != []
  {
    exists i :: 0 <= i < |probes| && FirstHitWithin(walls, probes[i], distance)
  }

  /** A collision is some wall on some probe within the distance. */
  lemma BlockedIff(walls: seq<SceneObject>, probes: seq<Ray>, distance: real)
    ensures Blocked(walls, probes, distance) <==>
              exists i, o :: 0 <= i < |probes| && o in walls && probes[i](o).Some? && probes[i](o).value < distance
  {
    forall i | 0 <= i < |probes| {
      FirstHitWithinIff(walls, probes[i], distance);
    }
  }


  /**
   * The collision response to the updated velocity `v`: a negligible
   * velocity is kept and nothing moves; otherwise a collision stops the
   * camera (velocity zero, one more `onCollision` call when there is a
   * callback) and no collision advances the position by `v`.
   */
  predicate Responds(v: Vec3, collided: bool, hasCallback: bool, position0: Vec3, calls0: nat,
                     position: Vec3, velocity: Vec3, calls: nat)
  {
    if LengthSq(v) <= MoveThresholdSq then
      !collided && position == position0 && velocity == v && calls == calls0
    else if collided then
      position == position0 && velocity == Zero && calls == calls0 + (if hasCallback then 1 else 0)
    else
      position == Add(position0, v) && velocity == v && calls == calls0
  }

  /**
   * Whether the probes were cast for velocity `v` at time `now` and what they
   * found. Only a non-negligible velocity with a scene casts them: the wall
   * cache is first rebuilt from the scene (stamped `now`) when there is none
   * or it is more than 5000 ms old, and kept otherwise; the collision is
   * `Blocked` over that cache. In every other case the cache and its time
   * are untouched and there is no collision.
   */
  predicate Probed(v: Vec3, now: int, scene: Option<seq<SceneObject>>, probes: seq<Ray>, distance: real,
                   cache0: Option<seq<SceneObject>>, cacheTime0: int,
                   cache: Option<seq<SceneObject>>, cacheTime: int, collided: bool)
  {
    if LengthSq(v) > MoveThresholdSq && scene.Some? then
      && (if cache0.None? || now - cacheTime0 > WallCacheInterval
          then cache == Some(Select(scene.value, Wall)) && cacheTime == now
          else cache == cache0 && cacheTime == cacheTime0)
      && collided == Blocked(cache.value, probes, distance)
    else
      !collided && cache == cache0 && cacheTime == cacheTime0
  }

  /**
   * The pitch update of a frame: after a move (or a Q/E tilt) the pitch is
   * the tilted pitch clamped, the rotation is rebuilt from it and the
   * publication clock advances when more than 100 ms have passed; without
   * one, none of them changes.
   */
  predicate Tilted(moved: bool, now: int, step: real, theta: real,
                   phi0: real, rotation0: Vec3, lastUpdate0: int,
                   phi: real, rotation: Vec3, lastUpdate: int)
  {
    if moved then
      && phi == ClampPitch(phi0 + step)
      && rotation == Vec3(phi, theta, 0.0)
      && lastUpdate == (if now - lastUpdate0 > PublishInterval then now else lastUpdate0)
    else
      phi == phi0 && rotation == rotation0 && lastUpdate == lastUpdate0
  }
  /** A frame that moved leaves the pitch within the limit; one that did not leaves it as it was. */
  lemma PitchStaysInRange(moved: bool, now: int, step: real, theta: real,
                          phi0: real, rotation0: Vec3, lastUpdate0: int,
                          phi: real, rotation: Vec3, lastUpdate: int)
    requires Tilted(moved, now, step, theta, phi0, rotation0, lastUpdate0, phi, rotation, lastUpdate)
    requires moved || -(MaxPhi as real) <= phi0 <= MaxPhi as real
    ensures -(MaxPhi as real) <= phi <= MaxPhi as real
  {
  }

  // ---------------------------------------------------------------- touches

  datatype Point = Point(x: real, y: real)
  datatype TouchStart = TouchStart(x: real, y: real, time: int)

  function SqDist(a: Point, b: Point): real {
    (a.x - b.x) * (a.x - b.x) + (a.y - b.y) * (a.y - b.y)
  }

  /**
   * The probe loop of `checkCollision`: cast each probe ray against the walls
   * in turn and stop at the first whose nearest hit is closer than `distance`.
   */
  method CastProbes(walls: seq<SceneObject>, probes: seq<Ray>, distance: real) returns (collided: bool)
    ensures collided == Blocked(walls, probes, distance)
  {
    for i := 0 to |probes|
      invariant forall j :: 0 <= j < i ==> !FirstHitWithin(walls, probes[j], distance)
    {
      var intersects := Intersect(walls, probes[i]);
      if intersects != [] && Nearest(intersects).distance < distance {
        return true;
      }
    }
    return false;
  }

  /** The state bag `controlsRef.current` of one controller, with the camera pose it drives. */
  class ControlsState {
    var keys: KeyMap
    var velocity: Vec3
    /** `camera.position`. */
    var position: Vec3
    /** `camera.rotation` as (pitch, yaw, roll). */
    var rotation: Vec3
    var phi: real
    var theta: real
    var zoomLevel: real
    var cachedWallObjects: Option<seq<SceneObject>>
    var lastCacheUpdate: int
    /** `animationId != null`: a frame callback is requested. */
    var framePending: bool
    var touchStart: Option<TouchStart>
    var pinchStartDistance: Option<real>
    /** Pointer-move throttle clock, also refreshed by the tick's publication step. */
    var lastUpdate: int
    /** Whether the `onCollision` prop is given. */
    const hasCollisionCallback: bool
    /** How many times `onCollision` has been called. */
    var collisionCalls: nat

    ghost predicate Valid()
      reads this
    {
      && MinZoom <= zoomLevel <= MaxZoom
      && (cachedWallObjects.Some? ==> forall o :: o in cachedWallObjects.value ==> Classify(o) == Wall)
    }

    /** The initial state bag, with pitch and yaw read from the camera on mount. */
    constructor (cameraPosition: Vec3, cameraRotation: Vec3, cameraPitch: real, cameraYaw: real, onCollision: bool)
      ensures Valid()
      ensures keys == map[] && velocity == Zero && zoomLevel == 1.0
      ensures position == cameraPosition && rotation == cameraRotation
      ensures phi == cameraPitch && theta == cameraYaw
      ensures cachedWallObjects == None && lastCacheUpdate == 0 && !framePending
      ensures touchStart == None && pinchStartDistance == None && lastUpdate == 0
      ensures hasCollisionCallback == onCollision && collisionCalls == 0
    {
      keys := map[];
      velocity, position, rotation := Zero, cameraPosition, cameraRotation;
      phi, theta, zoomLevel := cameraPitch, cameraYaw, 1.0;
      cachedWallObjects, lastCacheUpdate := None, 0;
      framePending := false;
      touchStart, pinchStartDistance := None, None;
      lastUpdate := 0;
      hasCollisionCallback := onCollision;
      collisionCalls := 0;
    }

    /** `getWallObjects`: rebuild the wall list when there is none or it is more than 5000 ms old. */
    method GetWallObjects(now: int, scene: seq<SceneObject>) returns (walls: seq<SceneObject>)
      requires Valid()
      modifies this`cachedWallObjects, this`lastCacheUpdate
      ensures Valid()
      ensures cachedWallObjects == Some(walls)
      ensures old(cachedWallObjects.None? || now - lastCacheUpdate > WallCacheInterval) ==>
                walls == Select(scene, Wall) && lastCacheUpdate == now
      ensures old(cachedWallObjects.Some? && now - lastCacheUpdate <= WallCacheInterval) ==>
                walls == old(cachedWallObjects.value) && lastCacheUpdate == old(lastCacheUpdate)
    {
      if cachedWallObjects.None? || now - lastCacheUpdate > WallCacheInterval {
        var w: seq<SceneObject> := [];
        var i := 0;
        while i < |scene|
          invariant 0 <= i <= |scene|
          invariant w == Select(scene[..i], Wall)
        {
          var o := scene[i];
          assert scene[..i + 1][..i] == scene[..i];
          if Named(o) && Contains(ToLower(o.name.value), WallKeyword) {
            w := w + [o];
          }
          i := i + 1;
        }
        assert scene[..i] == scene;
        cachedWallObjects, lastCacheUpdate := Some(w), now;
      }
      walls := cachedWallObjects.value;
    }

    /**
     * `checkCollision`: with a scene, cast the probe rays against the cached
     * walls and report whether one meets a wall nearer than `distance`.
     */
    method CheckCollision(now: int, scene: Option<seq<SceneObject>>, probes: seq<Ray>, distance: real)
      returns (collided: bool)
      requires Valid()
      modifies this`cachedWallObjects, this`lastCacheUpdate
      ensures Valid()
      ensures scene.None? ==> !collided && cachedWallObjects == old(cachedWallObjects)
                                && lastCacheUpdate == old(lastCacheUpdate)
      ensures scene.Some? ==>
                && cachedWallObjects.Some?
                && (old(cachedWallObjects.None? || now - lastCacheUpdate > WallCacheInterval) ==>
                      cachedWallObjects.value == Select(scene.value, Wall) && lastCacheUpdate == now)
                && (old(cachedWallObjects.Some? && now - lastCacheUpdate <= WallCacheInterval) ==>
                      cachedWallObjects == old(cachedWallObjects) && lastCacheUpdate == old(lastCacheUpdate))
                && collided == Blocked(cachedWallObjects.value, probes, distance)
    {
      if scene.None? {
        return false;
      }
      var wallObjects := GetWallObjects(now, scene.value);
      collided := CastProbes(wallObjects, probes, distance);
    }

    /**
     * `handleKeyDown`: unless walking, hold the key under both identifiers and
     * request a frame when none is pending. Returns whether the default action
     * is prevented and whether a frame was requested.
     */
    method HandleKeyDown(key: string, isWalking: bool) returns (preventDefault: bool, requested: bool)
      modifies this`keys, this`framePending
      ensures isWalking ==> !preventDefault && !requested && keys == old(keys) && framePending == old(framePending)
      ensures !isWalking ==>
                && preventDefault == (key in ControlKeys)
                && keys == Press(old(keys), key)
                && requested == !old(framePending)
                && framePending
    {
      if isWalking {
        return false, false;
      }
      preventDefault := key in ControlKeys;
      keys := keys[key := true];
      keys := keys[ToLower(key) := true];
      requested := !framePending;
      if requested {
        framePending := true;
      }
    }

    /**
     * `handleKeyUp`: release the key under both identifiers, in either mode;
     * when not walking and nothing is held, re-read pitch and yaw from the camera.
     */
    method HandleKeyUp(key: string, isWalking: bool, cameraPitch: real, cameraYaw: real)
      modifies this`keys, this`phi, this`theta
      ensures keys == Release(old(keys), key)
      ensures !isWalking && !AnyHeld(keys) ==> phi == cameraPitch && theta == cameraYaw
      ensures isWalking || AnyHeld(keys) ==> phi == old(phi) && theta == old(theta)
    {
      keys := keys[key := false];
      keys := keys[ToLower(key) := false];
      if !isWalking && !AnyHeld(keys) {
        phi, theta := cameraPitch, cameraYaw;
      }
    }

    /** `handleTouchStart`: one finger starts a swipe, two fingers start a pinch. */
    method HandleTouchStart(touches: seq<Point>, now: int, span: real)
      requires |touches| == 2 ==> span >= 0.0 && span * span == SqDist(touches[0], touches[1])
      modifies this`touchStart, this`pinchStartDistance
      ensures |touches| == 1 ==> touchStart == Some(TouchStart(touches[0].x, touches[0].y, now))
                                 && pinchStartDistance == old(pinchStartDistance)
      ensures |touches| == 2 ==> pinchStartDistance == Some(span) && touchStart == old(touchStart)
      ensures |touches| != 1 && |touches| != 2 ==>
                touchStart == old(touchStart) && pinchStartDistance == old(pinchStartDistance)
    {
      if |touches| == 1 {
        touchStart := Some(TouchStart(touches[0].x, touches[0].y, now));
      } else if |touches| == 2 {
        pinchStartDistance := Some(span);
      }
    }

    /**
     * `handleTouchMove` when not walking: a one-finger swipe presses a
     * direction key (it does not request a frame); a two-finger pinch changes
     * the zoom by the change in finger distance, clamped to [0.5, 2].
     */
    method HandleTouchMove(touches: seq<Point>, now: int, span: real, isWalking: bool)
      requires Valid()
      requires |touches| == 2 ==> span >= 0.0 && span * span == SqDist(touches[0], touches[1])
      modifies this`keys, this`zoomLevel, this`pinchStartDistance
      ensures Valid()
      ensures MinZoom <= zoomLevel <= MaxZoom
      ensures isWalking || (|touches| != 1 && |touches| != 2) ==>
                keys == old(keys) && zoomLevel == old(zoomLevel) && pinchStartDistance == old(pinchStartDistance)
      ensures !isWalking && |touches| == 1 ==>
                && zoomLevel == old(zoomLevel) && pinchStartDistance == old(pinchStartDistance)
                && keys == match (if touchStart.Some? then
                                    SwipeKey(touches[0].x - touchStart.value.x, touches[0].y - touchStart.value.y,
                                             now - touchStart.value.time)
                                  else None)
                           case Some(k) => old(keys)[k := true]
                           case None => old(keys)
      ensures !isWalking && |touches| == 2 ==>
                && keys == old(keys)
                && pinchStartDistance == Some(span)
                && (old(pinchStartDistance).Some? ==>
                      zoomLevel == Clamp(old(zoomLevel) + (span - old(pinchStartDistance).value) * PinchZoomFactor,
                                         MinZoom, MaxZoom))
                && (old(pinchStartDistance).None? ==> zoomLevel == old(zoomLevel))
    {
      if isWalking {
        return;
      }
      if |touches| == 1 {
        if touchStart.None? {
          return;
        }
        var dx := touches[0].x - touchStart.value.x;
        var dy := touches[0].y - touchStart.value.y;
        var time := now - touchStart.value.time;
        var swipe := SwipeKey(dx, dy, time);
        if swipe.Some? {
          keys := keys[swipe.value := true];
        }
      } else if |touches| == 2 {
        if pinchStartDistance.Some? {
          var pinchDelta := span - pinchStartDistance.value;
          var zoomChange := pinchDelta * PinchZoomFactor;
          zoomLevel := Clamp(zoomLevel + zoomChange, MinZoom, MaxZoom);
        }
        pinchStartDistance := Some(span);
      }
    }

    /** The timer 100 ms after a swipe: release the key the swipe pressed. */
    method ReleaseSwipeKey(key: string)
      modifies this`keys
      ensures keys == old(keys)[key := false]
    {
      keys := keys[key := false];
    }

    /**
     * `handlePointerMove` under pointer lock, at most once per 16 ms: turn by
     * the mouse deltas, with the pitch clamped to [-MaxPhi, MaxPhi].
     */
    method HandlePointerMove(now: int, movementX: real, movementY: real, isWalking: bool, pointerLocked: bool)
      modifies this`phi, this`theta, this`rotation, this`lastUpdate
      ensures isWalking || !pointerLocked || old(now - lastUpdate < PointerMoveInterval) ==>
                phi == old(phi) && theta == old(theta) && rotation == old(rotation) && lastUpdate == old(lastUpdate)
      ensures !isWalking && pointerLocked && old(now - lastUpdate >= PointerMoveInterval) ==>
                && lastUpdate == now
                && theta == old(theta) - movementX * Sensitivity
                && phi == ClampPitch(old(phi) - movementY * Sensitivity)
                && -(MaxPhi as real) <= phi <= MaxPhi as real
                && rotation == Vec3(phi, theta, 0.0)
    {
      if isWalking || !pointerLocked {
        return;
      }
      if now - lastUpdate < PointerMoveInterval {
        return;
      }
      lastUpdate := now;
      theta := theta - movementX * Sensitivity;
      phi := phi - movementY * Sensitivity;
      phi := ClampPitch(phi);
      rotation := Vec3(phi, theta, 0.0);
    }

    /**
     * The collision response of one tick, for the velocity already updated:
     * when it is not negligible, stop at a wall (velocity zero, `onCollision`
     * called once) or advance the camera by exactly the velocity.
     */
    method StopOrAdvance(now: int, scene: Option<seq<SceneObject>>, probes: seq<Ray>, checkDistance: real)
      returns (collided: bool, advanced: bool)
      requires Valid()
      modifies this`position, this`velocity, this`collisionCalls, this`cachedWallObjects, this`lastCacheUpdate
      ensures Valid()
      ensures Responds(old(velocity), collided, hasCollisionCallback, old(position), old(collisionCalls),
                       position, velocity, collisionCalls)
      ensures Probed(old(velocity), now, scene, probes, checkDistance, old(cachedWallObjects), old(lastCacheUpdate),
                     cachedWallObjects, lastCacheUpdate, collided)
      ensures advanced <==> LengthSq(old(velocity)) > MoveThresholdSq && !collided
    {
      collided, advanced := false, false;
      if LengthSq(velocity) > MoveThresholdSq {
        collided := CheckCollision(now, scene, probes, checkDistance);
        if !collided {
          position := Add(position, velocity);
          advanced := true;
        } else {
          if hasCollisionCallback {
            collisionCalls := collisionCalls + 1;
          }
          velocity := Zero;
        }
      }
    }

    /**
     * The Q/E tilt followed, after any move, by the pitch clamp, the rotation
     * and the publication clock; `advanced` says whether the camera advanced.
     */
    method Tilt(now: int, advanced: bool) returns (moved: bool)
      modifies this`phi, this`rotation, this`lastUpdate
      ensures moved <==> advanced || Held(keys, "q") || Held(keys, "e")
      ensures Tilted(moved, now, PitchStep(keys), theta, old(phi), old(rotation), old(lastUpdate),
                     phi, rotation, lastUpdate)
    {
      var tilted := TiltPitch();
      moved := advanced || tilted;

      if moved {
        phi := ClampPitch(phi);
        rotation := Vec3(phi, theta, 0.0);
        if now - lastUpdate > PublishInterval {
          lastUpdate := now;
        }
      }
    }

    /** The velocity update followed by the collision response. */
    method Move(now: int, forward: Vec3, right: Vec3, targetScale: real, speed: real,
                scene: Option<seq<SceneObject>>, probes: seq<Ray>)
      returns (collided: bool, advanced: bool)
      requires Valid()
      modifies this`position, this`velocity, this`collisionCalls, this`cachedWallObjects, this`lastCacheUpdate
      ensures Valid()
      ensures Responds(NextVelocity(old(velocity), keys, forward, right, targetScale, speed), collided,
                       hasCollisionCallback, old(position), old(collisionCalls), position, velocity, collisionCalls)
      ensures Probed(NextVelocity(old(velocity), keys, forward, right, targetScale, speed), now, scene, probes,
                     LimitedSpeed(speed) + CollisionMargin, old(cachedWallObjects), old(lastCacheUpdate),
                     cachedWallObjects, lastCacheUpdate, collided)
      ensures advanced <==> LengthSq(NextVelocity(old(velocity), keys, forward, right, targetScale, speed)) > MoveThresholdSq
                            && !collided
    {
      UpdateVelocity(forward, right, targetScale, speed);
      collided, advanced := StopOrAdvance(now, scene, probes, LimitedSpeed(speed) + CollisionMargin);
    }

    /** Damp, accelerate toward the held direction and limit the speed. */
    method UpdateVelocity(forward: Vec3, right: Vec3, targetScale: real, speed: real)
      modifies this`velocity
      ensures velocity == NextVelocity(old(velocity), keys, forward, right, targetScale, speed)
    {
      var target := TargetVelocity(TargetSigns(keys), forward, right, targetScale);
      velocity := Add(Scale(velocity, Damping), target);
      if speed > MaxSpeed {
        velocity := Scale(velocity, MaxSpeed / speed);
      }
    }

    /** Q raises and E lowers the pitch by a fixed step; reports whether either is held. */
    method TiltPitch() returns (tilted: bool)
      modifies this`phi
      ensures tilted == (Held(keys, "q") || Held(keys, "e"))
      ensures phi == old(phi) + PitchStep(keys)
    {
      tilted := false;
      if Held(keys, "q") {
        phi := phi + PitchSpeed;
        tilted := true;
      }
      if Held(keys, "e") {
        phi := phi - PitchSpeed;
        tilted := true;
      }
    }

    /**
     * One frame of `animate` while not walking: the velocity is damped,
     * accelerated toward the held direction and limited (`NextVelocity`);
     * the collision response and the probes follow `Responds` and `Probed`;
     * the frame counts as a move when the camera advanced or Q/E is held, and
     * the pitch follows `Tilted`. Yaw, keys, zoom and touch state are untouched.
     */
    method Step(now: int, forward: Vec3, right: Vec3, targetScale: real, speed: real,
                scene: Option<seq<SceneObject>>, probes: seq<Ray>)
      returns (moved: bool, collided: bool)
      requires Valid()
      modifies this
      ensures Valid()
      ensures keys == old(keys) && zoomLevel == old(zoomLevel) && theta == old(theta)
      ensures touchStart == old(touchStart) && pinchStartDistance == old(pinchStartDistance)
      ensures framePending == old(framePending)
      ensures Responds(NextVelocity(old(velocity), keys, forward, right, targetScale, speed), collided,
                       hasCollisionCallback, old(position), old(collisionCalls), position, velocity, collisionCalls)
      ensures Probed(NextVelocity(old(velocity), keys, forward, right, targetScale, speed), now, scene, probes,
                     LimitedSpeed(speed) + CollisionMargin, old(cachedWallObjects), old(lastCacheUpdate),
                     cachedWallObjects, lastCacheUpdate, collided)
      ensures moved <==> (LengthSq(NextVelocity(old(velocity), keys, forward, right, targetScale, speed)) > MoveThresholdSq
                          && !collided) || Held(keys, "q") || Held(keys, "e")
      ensures Tilted(moved, now, PitchStep(keys), theta, old(phi), old(rotation), old(lastUpdate),
                     phi, rotation, lastUpdate)
    {
      var advanced;
      collided, advanced := Move(now, forward, right, targetScale, speed, scene, probes);
      moved := Tilt(now, advanced);
    }

    /**
     * `animate`, one frame. Walking: re-read pitch and yaw from the camera.
     * Otherwise: one `Step`. Either way the next frame is requested iff some
     * key is held.
     *
     * `forward` and `right` are the camera's horizontal basis; `targetScale` is
     * `acceleration / length` of the raw target and `speed` the length of the
     * accelerated velocity; `probes` are the five probe rays along the motion.
     */
    method Tick(now: int, isWalking: bool, cameraPitch: real, cameraYaw: real,
                forward: Vec3, right: Vec3, targetScale: real, speed: real,
                scene: Option<seq<SceneObject>>, probes: seq<Ray>)
      returns (moved: bool, collided: bool)
      requires Valid()
      requires LengthSq(RawTarget(TargetSigns(keys), forward, right)) > 0.0 ==>
                 targetScale > 0.0
                 && targetScale * targetScale * LengthSq(RawTarget(TargetSigns(keys), forward, right))
                    == Acceleration * Acceleration
      requires speed >= 0.0
      requires speed * speed ==
                 LengthSq(Accelerate(velocity, TargetVelocity(TargetSigns(keys), forward, right, targetScale)))
      modifies this
      ensures Valid()
      ensures framePending == AnyHeld(keys)
      ensures isWalking ==>
                && !moved && !collided && keys == old(keys)
                && phi == cameraPitch && theta == cameraYaw
                && velocity == old(velocity) && position == old(position) && rotation == old(rotation)
                && collisionCalls == old(collisionCalls) && lastUpdate == old(lastUpdate)
                && zoomLevel == old(zoomLevel) && touchStart == old(touchStart)
                && pinchStartDistance == old(pinchStartDistance)
                && cachedWallObjects == old(cachedWallObjects) && lastCacheUpdate == old(lastCacheUpdate)
      ensures !isWalking ==>
                && keys == old(keys) && zoomLevel == old(zoomLevel) && theta == old(theta)
                && touchStart == old(touchStart) && pinchStartDistance == old(pinchStartDistance)
                && Responds(NextVelocity(old(velocity), keys, forward, right, targetScale, speed), collided,
                            hasCollisionCallback, old(position), old(collisionCalls), position, velocity, collisionCalls)
                && Probed(NextVelocity(old(velocity), keys, forward, right, targetScale, speed), now, scene, probes,
                          LimitedSpeed(speed) + CollisionMargin, old(cachedWallObjects), old(lastCacheUpdate),
                          cachedWallObjects, lastCacheUpdate, collided)
                && (moved <==> (LengthSq(NextVelocity(old(velocity), keys, forward, right, targetScale, speed)) > MoveThresholdSq
                                && !collided) || Held(keys, "q") || Held(keys, "e"))
                && Tilted(moved, now, PitchStep(keys), theta, old(phi), old(rotation), old(lastUpdate),
                          phi, rotation, lastUpdate)
    {
      if isWalking {
        phi, theta := cameraPitch, cameraYaw;
        framePending := AnyHeld(keys);
        return false, false;
      }
      moved, collided := Step(now, forward, right, targetScale, speed, scene, probes);
      framePending := AnyHeld(keys);
    }
  }

  /**
   * A swipe presses a direction key but, unlike a key-down, requests no
   * frame; the timer's release then leaves nothing held.
   */
  method SwipeAloneRequestsNoFrame(cameraPosition: Vec3, start: Point, startTime: int, end: Point, endTime: int)
    returns (pressed: bool, pending: bool, heldAfterRelease: bool)
    requires SwipeKey(end.x - start.x, end.y - start.y, endTime - startTime).Some?
    ensures pressed && !pending && !heldAfterRelease
  {
    var controls := new ControlsState(cameraPosition, Zero, 0.0, 0.0, false);
    controls.HandleTouchStart([start], startTime, 0.0);
    controls.HandleTouchMove([end], endTime, 0.0, false);
    var key := SwipeKey(end.x - start.x, end.y - start.y, endTime - startTime).value;
    pressed := Held(controls.keys, key);
    pending := controls.framePending;
    controls.ReleaseSwipeKey(key);
    heldAfterRelease := AnyHeld(controls.keys);
  }
}
