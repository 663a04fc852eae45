/** SimpleCameraFollow: in LateUpdate the camera eases towards its target plus
    an offset, at its own depth, optionally clamped to a rectangle. It also
    remembers where it started (ResetCamera) and can be given a new target. */
module Camera {
  import opened Engine

  datatype Settings = Settings(followSpeed: real, offset: Vec3, useBounds: bool,
                               minBounds: Vec2, maxBounds: Vec2)

  /** Bounds that describe a rectangle. */
  predicate ProperBounds(s: Settings)
  {
    s.minBounds.x <= s.maxBounds.x && s.minBounds.y <= s.maxBounds.y
  }

  predicate WithinBounds(s: Settings, p: Vec3)
  {
    s.minBounds.x <= p.x <= s.maxBounds.x && s.minBounds.y <= p.y <= s.maxBounds.y
  }

  /** The point the camera moves towards: target plus offset, at the camera's
      own depth, clamped when bounds are on. */
  function TargetPoint(s: Settings, target: Vec3, cameraZ: real): (p: Vec3)
    ensures p.z == cameraZ
    ensures !s.useBounds ==> p.x == target.x + s.offset.x && p.y == target.y + s.offset.y
    ensures s.useBounds ==>
              p.x == Clamp(target.x + s.offset.x, s.minBounds.x, s.maxBounds.x) &&
              p.y == Clamp(target.y + s.offset.y, s.minBounds.y, s.maxBounds.y)
    ensures s.useBounds && ProperBounds(s) ==> WithinBounds(s, p)
    ensures WithinBounds(s, target.Plus(s.offset)) ==> p.x == target.x + s.offset.x && p.y == target.y + s.offset.y
  {
    var targetPosition := target.Plus(s.offset).(z := cameraZ);
    if s.useBounds then
      targetPosition.(x := Clamp(targetPosition.x, s.minBounds.x, s.maxBounds.x),
                      y := Clamp(targetPosition.y, s.minBounds.y, s.maxBounds.y))
    else targetPosition
  }

  /** One LateUpdate with a target: interpolate towards the target point by
      followSpeed * deltaTime. The depth never changes; a step of at most 0
      leaves the camera where it is, and a step of at least 1 lands on the
      target point. */
  function FollowStep(s: Settings, camera: Vec3, target: Vec3, deltaTime: real): (r: Vec3)
    ensures r.z == camera.z
    ensures Scaled(s.followSpeed, deltaTime) <= 0.0 ==> r == camera
    ensures Scaled(s.followSpeed, deltaTime) >= 1.0 ==> r == TargetPoint(s, target, camera.z)
  {
    Lerp(camera, TargetPoint(s, target, camera.z), Scaled(s.followSpeed, deltaTime))
  }

  /** Following keeps the depth and never moves the camera away from the
      target point, on either axis; inside proper bounds it stays inside. */
  lemma FollowStepProperties(s: Settings, camera: Vec3, target: Vec3, deltaTime: real)
    ensures FollowStep(s, camera, target, deltaTime).z == camera.z
    ensures var q := TargetPoint(s, target, camera.z);
            var c := FollowStep(s, camera, target, deltaTime);
            (camera.x <= q.x ==> camera.x <= c.x <= q.x) && (q.x <= camera.x ==> q.x <= c.x <= camera.x) &&
            (camera.y <= q.y ==> camera.y <= c.y <= q.y) && (q.y <= camera.y ==> q.y <= c.y <= camera.y)
    ensures s.useBounds && ProperBounds(s) && WithinBounds(s, camera) ==>
            WithinBounds(s, FollowStep(s, camera, target, deltaTime))
  {
    var q := TargetPoint(s, target, camera.z);
    var t := Scaled(s.followSpeed, deltaTime);
    LerpRealBetween(camera.x, q.x, t);
    LerpRealBetween(camera.y, q.y, t);
    LerpRealBetween(camera.z, q.z, t);
  }

  /** One LateUpdate of a run: the target's position that frame (None when the
      camera has no target) and the frame time. */
  datatype Step = Step(target: Option<Vec3>, deltaTime: real)

  /** One LateUpdate of a run. */
  function FollowFrame(s: Settings, camera: Vec3, step: Step): Vec3
  {
    match step.target
    case None => camera
    case Some(t) => FollowStep(s, camera, t, step.deltaTime)
  }

  /** The camera's position after a run of LateUpdates. */
  function Follow(s: Settings, camera: Vec3, steps: seq<Step>): Vec3
    decreases |steps|
  {
    if steps == [] then camera else Follow(s, FollowFrame(s, camera, steps[0]), steps[1..])
  }

  /** The depth of the camera never changes while following. */
  lemma {:induction false} FollowKeepsDepth(s: Settings, camera: Vec3, steps: seq<Step>)
    ensures Follow(s, camera, steps).z == camera.z
    decreases |steps|
  {
    if steps != [] {
      var next := FollowFrame(s, camera, steps[0]);
      if steps[0].target.Some? {
        FollowStepProperties(s, camera, steps[0].target.value, steps[0].deltaTime);
      }
      FollowKeepsDepth(s, next, steps[1..]);
    }
  }

  /** With proper bounds on, a camera that starts inside them stays inside,
      wherever the target goes. */
  lemma {:induction false} FollowStaysInBounds(s: Settings, camera: Vec3, steps: seq<Step>)
    requires s.useBounds && ProperBounds(s) && WithinBounds(s, camera)
    ensures WithinBounds(s, Follow(s, camera, steps))
    decreases |steps|
  {
    if steps != [] {
      var next := FollowFrame(s, camera, steps[0]);
      if steps[0].target.Some? {
        FollowStepProperties(s, camera, steps[0].target.value, steps[0].deltaTime);
      }
      FollowStaysInBounds(s, next, steps[1..]);
    }
  }

  class SimpleCameraFollow {
    const settings: Settings
    var target: Transform?
    /** The camera's transform.position. */
    var position: Vec3
    var initialPosition: Vec3

    /** Start: remember where the camera is. */
    constructor (settings: Settings, target: Transform?, position: Vec3)
      ensures this.settings == settings && this.target == target
      ensures this.position == position && initialPosition == position
    {
      this.settings := settings;
      this.target := target;
      this.position := position;
      initialPosition := position;
    }

    method LateUpdate(deltaTime: real)
      modifies this`position
      ensures target == null ==> position == old(position)
      ensures target != null ==> position == FollowStep(settings, old(position), target.position, deltaTime)
      ensures position.z == old(position.z)
    {
      if target != null {
        var targetPosition := target.position.Plus(settings.offset);
        targetPosition := targetPosition.(z := position.z);
        if settings.useBounds {
          targetPosition := targetPosition.(x := Clamp(targetPosition.x, settings.minBounds.x, settings.maxBounds.x));
          targetPosition := targetPosition.(y := Clamp(targetPosition.y, settings.minBounds.y, settings.maxBounds.y));
        }
        assert targetPosition == TargetPoint(settings, target.position, position.z);
        FollowStepProperties(settings, position, target.position, deltaTime);
        position := Lerp(position, targetPosition, Scaled(settings.followSpeed, deltaTime));
      }
    }

    method ResetCamera()
      modifies this`position
      ensures position == initialPosition
    {
      position := initialPosition;
    }

    method SetTarget(newTarget: Transform?)
      modifies this`target
      ensures target == newTarget
    {
      target := newTarget;
    }
  }
}
