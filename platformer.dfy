/** Simple2DPlayerController: left/right movement from the horizontal axis, a
    sprite that faces the direction of movement (the facingRight flag and the
    sign of the transform's local x scale), and a jump allowed only on the
    ground. Every Update runs HandleMovement and then HandleJump. */
module Platformer {
  import opened Engine

  datatype Settings = Settings(moveSpeed: real, jumpForce: real)

  /** Which way the sprite faces: the flag and the local scale it mirrors. */
  datatype Facing = Facing(right: bool, scale: Vec3)

  /** What the host supplies to one Update: Input.GetAxis("Horizontal"), the
      Jump button pressed this frame, and the ground overlap test. */
  datatype Frame = Frame(horizontal: real, jumpPressed: bool, grounded: bool)

  /** The sign of the x scale agrees with the flag. */
  predicate Agrees(f: Facing)
  {
    (f.right ==> f.scale.x > 0.0) && (!f.right ==> f.scale.x < 0.0)
  }

  /** Flip: toggles the flag and mirrors the x scale, keeping y and z. */
  function Flipped(f: Facing): (r: Facing)
    ensures r.right == !f.right
    ensures r.scale.x == -f.scale.x && r.scale.y == f.scale.y && r.scale.z == f.scale.z
  {
    Facing(!f.right, f.scale.(x := f.scale.x * -1.0))
  }

  /** The flip rule of HandleMovement: flip when the input points away from
      the way the sprite faces. The result is the facing or its mirror image,
      zero input keeps it, a scale that agreed with the flag still agrees, and
      only the x scale can change. */
  function FacingAfter(f: Facing, horizontal: real): (r: Facing)
    ensures r == f || r == Flipped(f)
    ensures horizontal == 0.0 ==> r == f
    ensures Agrees(f) ==> Agrees(r)
    ensures r.scale.y == f.scale.y && r.scale.z == f.scale.z
  {
    if horizontal > 0.0 && !f.right then Flipped(f)
    else if horizontal < 0.0 && f.right then Flipped(f)
    else f
  }

  /** HandleMovement's velocity: the horizontal speed follows the input, the
      vertical speed is kept. */
  function MovedVelocity(s: Settings, v: Vec2, horizontal: real): (r: Vec2)
    ensures r.x == horizontal * s.moveSpeed && r.y == v.y
  {
    Vec2(horizontal * s.moveSpeed, v.y)
  }

  /** HandleJump's velocity: a press on the ground sets the vertical speed to
      jumpForce; anything else leaves the velocity alone. */
  function JumpedVelocity(s: Settings, v: Vec2, pressed: bool, grounded: bool): (r: Vec2)
    ensures r.x == v.x
    ensures r.y != v.y ==> pressed && grounded
    ensures pressed && grounded ==> r.y == s.jumpForce
    ensures !(pressed && grounded) ==> r == v
  {
    if pressed && grounded then Vec2(v.x, s.jumpForce) else v
  }

  /** Two flips give back the original facing. */
  lemma FlipTwice(f: Facing)
    ensures Flipped(Flipped(f)) == f
  {
    assert f.scale.x * -1.0 * -1.0 == f.scale.x;
  }

  /** A flip happens exactly when the input points away from the facing; zero
      input never flips; after a nonzero input the sprite faces the input. */
  lemma FlipRule(f: Facing, horizontal: real)
    ensures FacingAfter(f, horizontal) != f <==>
      (horizontal > 0.0 && !f.right) || (horizontal < 0.0 && f.right)
    ensures FacingAfter(f, horizontal) != f ==> FacingAfter(f, horizontal) == Flipped(f)
    ensures horizontal != 0.0 ==> FacingAfter(f, horizontal).right == (horizontal > 0.0)
  {
  }

  /** The facing after a run of frames with the given horizontal inputs. */
  function FacingAfterRun(f: Facing, inputs: seq<real>): Facing
    decreases |inputs|
  {
    if inputs == [] then f else FacingAfter(FacingAfterRun(f, inputs[..|inputs| - 1]), inputs[|inputs| - 1])
  }

  /** The last nonzero input of a run, if any. */
  function LastNonzero(inputs: seq<real>): Option<real>
    decreases |inputs|
  {
    if inputs == [] then None
    else if inputs[|inputs| - 1] != 0.0 then Some(inputs[|inputs| - 1])
    else LastNonzero(inputs[..|inputs| - 1])
  }

  /** A sprite whose scale agrees with its flag keeps agreeing, whatever the
      inputs. */
  lemma {:induction false} AgreementAlongRun(f: Facing, inputs: seq<real>)
    requires Agrees(f)
    ensures Agrees(FacingAfterRun(f, inputs))
    decreases |inputs|
  {
    if inputs != [] {
      AgreementAlongRun(f, inputs[..|inputs| - 1]);
    }
  }

  /** After a run, the sprite faces the direction of the last nonzero input;
      with no nonzero input it never turned. */
  lemma {:induction false} FacesLastInput(f: Facing, inputs: seq<real>)
    ensures LastNonzero(inputs).Some? ==> FacingAfterRun(f, inputs).right == (LastNonzero(inputs).value > 0.0)
    ensures LastNonzero(inputs).None? ==> FacingAfterRun(f, inputs) == f
    decreases |inputs|
  {
    if inputs != [] {
      FacesLastInput(f, inputs[..|inputs| - 1]);
    }
  }

  class Simple2DPlayerController {
    const settings: Settings
    /** The Rigidbody2D found at Start; null when the object has none. */
    const rb: Body?
    var isGrounded: bool
    var facingRight: bool
    /** transform.localScale */
    var localScale: Vec3

    function Pose(): Facing
      reads this
    {
      Facing(facingRight, localScale)
    }

    /** The component starts facing right, not grounded. */
    constructor (settings: Settings, rb: Body?, localScale: Vec3)
      ensures this.settings == settings && this.rb == rb
      ensures facingRight && !isGrounded && this.localScale == localScale
    {
      this.settings := settings;
      this.rb := rb;
      isGrounded := false;
      facingRight := true;
      this.localScale := localScale;
    }

    method Flip()
      modifies this
      ensures Pose() == Flipped(old(Pose())) && isGrounded == old(isGrounded)
    {
      facingRight := !facingRight;
      var scale := localScale;
      scale := scale.(x := scale.x * -1.0);
      localScale := scale;
    }

    method HandleMovement(horizontal: real)
      modifies this, rb
      ensures isGrounded == old(isGrounded)
      ensures rb == null ==> Pose() == old(Pose())
      ensures rb != null ==>
        rb.velocity == MovedVelocity(settings, old(rb.velocity), horizontal) &&
        Pose() == FacingAfter(old(Pose()), horizontal)
    {
      if rb == null {
        return;
      }
      rb.velocity := Vec2(horizontal * settings.moveSpeed, rb.velocity.y);
      if horizontal > 0.0 && !facingRight {
        Flip();
      } else if horizontal < 0.0 && facingRight {
        Flip();
      }
    }

    method HandleJump(jumpPressed: bool, groundedNow: bool)
      modifies this, rb
      ensures Pose() == old(Pose())
      ensures rb == null ==> isGrounded == old(isGrounded)
      ensures rb != null ==>
        isGrounded == groundedNow &&
        rb.velocity == JumpedVelocity(settings, old(rb.velocity), jumpPressed, groundedNow)
    {
      if rb == null {
        return;
      }
      isGrounded := groundedNow;
      if jumpPressed && isGrounded {
        rb.velocity := Vec2(rb.velocity.x, settings.jumpForce);
      }
    }

    /** One frame: movement and facing, then the grounded check and the jump. */
    method Update(f: Frame)
      modifies this, rb
      ensures rb == null ==> Pose() == old(Pose()) && isGrounded == old(isGrounded)
      ensures rb != null ==>
        Pose() == FacingAfter(old(Pose()), f.horizontal) &&
        isGrounded == f.grounded &&
        rb.velocity == JumpedVelocity(settings, MovedVelocity(settings, old(rb.velocity), f.horizontal),
                                      f.jumpPressed, f.grounded)
    {
      if rb == null {
        return;
      }
      HandleMovement(f.horizontal);
      HandleJump(f.jumpPressed, f.grounded);
    }
  }
}
