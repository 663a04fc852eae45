/** SimpleEnemyAI: every frame, an enemy with a target measures the distance
    to it and attacks when close, chases when within detection range, and
    otherwise does nothing. Chasing sets the body's horizontal velocity, or
    moves the transform directly when there is no body. */
module Enemy {
  import opened Engine

  datatype Settings = Settings(moveSpeed: real, detectionRange: real, attackRange: real)

  datatype Decision = Attack | Chase | Idle

  /** The decision of Update: attack wins over chase, and beyond both ranges
      nothing happens. */
  function Decide(s: Settings, distance: real): (d: Decision)
    ensures d == Attack <==> distance <= s.attackRange
    ensures d == Chase <==> s.attackRange < distance <= s.detectionRange
    ensures d == Idle <==> distance > s.attackRange && distance > s.detectionRange
  {
    if distance <= s.attackRange then Attack
    else if distance <= s.detectionRange then Chase
    else Idle
  }

  /** ChasePlayer with a body: horizontal speed along the direction, vertical
      speed kept. */
  function ChaseVelocity(s: Settings, v: Vec2, direction: Vec2): (r: Vec2)
    ensures r.x == direction.x * s.moveSpeed && r.y == v.y
  {
    Vec2(direction.x * s.moveSpeed, v.y)
  }

  /** ChasePlayer without a body: the position advances along the direction
      (lifted to 3D, so the depth is kept). */
  function ChasePosition(s: Settings, p: Vec3, direction: Vec2, deltaTime: real): (r: Vec3)
    ensures r.z == p.z
  {
    p.Plus(Lift(direction).Times(s.moveSpeed).Times(deltaTime))
  }

  /** The step along each axis is direction * moveSpeed * deltaTime. */
  lemma ChaseStep(s: Settings, p: Vec3, direction: Vec2, deltaTime: real)
    ensures ChasePosition(s, p, direction, deltaTime).x - p.x == direction.x * s.moveSpeed * deltaTime
    ensures ChasePosition(s, p, direction, deltaTime).y - p.y == direction.y * s.moveSpeed * deltaTime
  {
  }

  /** When the attack range reaches the detection range, the enemy never
      chases: it either attacks or idles. */
  lemma NoChaseWithoutGap(s: Settings, distance: real)
    requires s.attackRange >= s.detectionRange
    ensures Decide(s, distance) != Chase
  {
  }

  /** Closing in never turns an attack into something else, and never turns
      a chase into idling. */
  lemma CloserIsNoCalmer(s: Settings, near: real, far: real)
    requires near <= far
    ensures Decide(s, far) == Attack ==> Decide(s, near) == Attack
    ensures Decide(s, far) == Chase ==> Decide(s, near) != Idle
  {
  }

  class SimpleEnemyAI {
    const settings: Settings
    /** The Rigidbody2D found at Start, or null. */
    const rb: Body?
    var target: Transform?
    /** transform.position */
    var position: Vec3

    /** Start: an unassigned target falls back to the object tagged "Player"
        that the host found, which may be null too. */
    constructor (settings: Settings, rb: Body?, target: Transform?, player: Transform?, position: Vec3)
      ensures this.settings == settings && this.rb == rb && this.position == position
      ensures this.target == if target != null then target else player
    {
      this.settings := settings;
      this.rb := rb;
      this.position := position;
      this.target := if target != null then target else player;
    }

    method ChasePlayer(direction: Vec2, deltaTime: real)
      modifies this`position, rb
      ensures rb != null ==> rb.velocity == ChaseVelocity(settings, old(rb.velocity), direction) && position == old(position)
      ensures rb == null ==> position == ChasePosition(settings, old(position), direction, deltaTime)
    {
      if rb != null {
        rb.velocity := Vec2(direction.x * settings.moveSpeed, rb.velocity.y);
      } else {
        position := position.Plus(Lift(direction).Times(settings.moveSpeed).Times(deltaTime));
      }
    }

    /** One frame. The host measures the distance to the target and the
        direction towards it (the normalised 3D difference cast to 2D, so not
        necessarily of unit length in the plane). Returns the decision, or None without a target. */
    method Update(distance: real, direction: Vec2, deltaTime: real) returns (decision: Option<Decision>)
      modifies this`position, rb
      ensures target == null ==> decision == None
      ensures target != null ==> decision == Some(Decide(settings, distance))
      ensures decision != Some(Chase) ==> position == old(position) && (rb != null ==> rb.velocity == old(rb.velocity))
      ensures decision == Some(Chase) && rb != null ==>
        rb.velocity == ChaseVelocity(settings, old(rb.velocity), direction) && position == old(position)
      ensures decision == Some(Chase) && rb == null ==>
        position == ChasePosition(settings, old(position), direction, deltaTime)
      ensures position.z == old(position.z)
    {
      if target == null {
        return None;
      }
      if distance <= settings.attackRange {
        decision := Some(Attack);
      } else if distance <= settings.detectionRange {
        ChasePlayer(direction, deltaTime);
        decision := Some(Chase);
      } else {
        decision := Some(Idle);
      }
    }
  }
}
