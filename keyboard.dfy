/** BasicInput: held keys become a horizontal and a vertical axis in
    {-1, 0, 1}, which set the velocity and move the transform; pressed keys
    trigger the jump, attack and interact actions independently. */
module Keyboard {
  import opened Engine

  /** The movement keys held this frame. */
  datatype Held = Held(a: bool, left: bool, d: bool, right: bool,
                       w: bool, up: bool, s: bool, down: bool)

  /** The action keys pressed this frame: Space, X, mouse button 0 and E. */
  datatype Pressed = Pressed(space: bool, x: bool, mouse0: bool, e: bool)

  datatype Action = Jump | Attack | Interact

  /** A or Left gives -1, else D or Right gives 1, else 0: left wins. */
  function Horizontal(k: Held): (h: real)
    ensures h == -1.0 || h == 0.0 || h == 1.0
    ensures h == -1.0 <==> k.a || k.left
    ensures h == 1.0 <==> !(k.a || k.left) && (k.d || k.right)
  {
    if k.a || k.left then -1.0
    else if k.d || k.right then 1.0
    else 0.0
  }

  /** W or Up gives 1, else S or Down gives -1, else 0: up wins. */
  function Vertical(k: Held): (v: real)
    ensures v == -1.0 || v == 0.0 || v == 1.0
    ensures v == 1.0 <==> k.w || k.up
    ensures v == -1.0 <==> !(k.w || k.up) && (k.s || k.down)
  {
    if k.w || k.up then 1.0
    else if k.s || k.down then -1.0
    else 0.0
  }

  /** The movement vector scaled by the speed; it has no depth. */
  function Velocity(moveSpeed: real, k: Held): (r: Vec3)
    ensures r.z == 0.0
    ensures r.x == Horizontal(k) * moveSpeed && r.y == Vertical(k) * moveSpeed
  {
    Vec3(Horizontal(k), Vertical(k), 0.0).Times(moveSpeed)
  }

  /** The actions of HandleActionInput; each has its own key test, so any
      combination can fire in one frame. */
  function Triggered(p: Pressed): (r: set<Action>)
    ensures Jump in r <==> p.space
    ensures Attack in r <==> p.x || p.mouse0
    ensures Interact in r <==> p.e
  {
    (if p.space then {Jump} else {}) +
    (if p.x || p.mouse0 then {Attack} else {}) +
    (if p.e then {Interact} else {})
  }

  predicate NoMovementKeys(k: Held)
  {
    !(k.a || k.left || k.d || k.right || k.w || k.up || k.s || k.down)
  }

  /** No movement key held means no velocity, so the position stays put. */
  lemma StillWithoutKeys(moveSpeed: real, k: Held, p: Vec3, deltaTime: real)
    requires NoMovementKeys(k)
    ensures Velocity(moveSpeed, k) == Zero3
    ensures p.Plus(Velocity(moveSpeed, k).Times(deltaTime)) == p
  {
  }

  /** Each velocity component is -moveSpeed, 0 or moveSpeed. */
  lemma VelocityComponents(moveSpeed: real, k: Held)
    ensures Velocity(moveSpeed, k).x in {-moveSpeed, 0.0, moveSpeed}
    ensures Velocity(moveSpeed, k).y in {-moveSpeed, 0.0, moveSpeed}
  {
  }

  class BasicInput {
    const moveSpeed: real
    var currentVelocity: Vec3
    /** transform.position */
    var position: Vec3

    constructor (moveSpeed: real, position: Vec3)
      ensures this.moveSpeed == moveSpeed && this.position == position
      ensures currentVelocity == Zero3
    {
      this.moveSpeed := moveSpeed;
      this.position := position;
      currentVelocity := Zero3;
    }

    method HandleMovementInput(k: Held, deltaTime: real)
      modifies this
      ensures currentVelocity == Velocity(moveSpeed, k)
      ensures position == old(position).Plus(currentVelocity.Times(deltaTime))
    {
      var movement := Vec3(Horizontal(k), Vertical(k), 0.0);
      currentVelocity := movement.Times(moveSpeed);
      position := position.Plus(currentVelocity.Times(deltaTime));
    }

    method HandleActionInput(p: Pressed) returns (actions: set<Action>)
      ensures actions == Triggered(p)
    {
      actions := {};
      if p.space {
        actions := actions + {Jump};
      }
      if p.x || p.mouse0 {
        actions := actions + {Attack};
      }
      if p.e {
        actions := actions + {Interact};
      }
    }

    /** One frame: movement, then the actions. */
    method Update(k: Held, p: Pressed, deltaTime: real) returns (actions: set<Action>)
      modifies this
      ensures currentVelocity == Velocity(moveSpeed, k)
      ensures position == old(position).Plus(currentVelocity.Times(deltaTime))
      ensures actions == Triggered(p)
    {
      HandleMovementInput(k, deltaTime);
      actions := HandleActionInput(p);
    }
  }
}
