/** AdvancedJump: a jump with coyote time (a grace period after walking off a
    ledge), an input buffer (an early press is remembered until landing) and
    variable height (extra gravity while falling or after releasing the key).

    Every Update runs, in this order: the grounding update (HandleCoyoteTime),
    the buffer update and jump decision (HandleJumpBuffer, which may call Jump),
    and the gravity shaping (HandleVariableJump). The pure functions below
    specify each step; the class AdvancedJump performs them on its fields and on
    the rigid body, and its methods are proved against those functions. */
module Jump {
  import opened Engine

  /** The component's inspector settings, plus the engine's gravity
      (Physics2D.gravity.y), which the shaping reads. */
  datatype Settings = Settings(
    jumpForce: real,
    fallMultiplier: real,
    lowJumpMultiplier: real,
    coyoteTimeThreshold: real,
    jumpBufferTime: real,
    gravityY: real)

  /** The state the component keeps from one frame to the next. */
  datatype Timers = Timers(isGrounded: bool, lastGroundedTime: real, jumpBufferCounter: real)

  /** The fields' values before the first Update (the C# defaults). */
  const Initial := Timers(false, 0.0, 0.0)

  /** What the host supplies to one Update: the ground raycast, the Space key
      (pressed this frame, held), Time.time and Time.deltaTime, and
      impulseGain: how much the engine has raised the body's vertical velocity,
      by the time the script reads it again this frame, in response to
      AddForce(up * jumpForce, Impulse) (jumpForce / mass when the engine
      applies the impulse at once, 0 when it defers it to the physics step).
      The two key flags are independent: a press without the key held is
      allowed, a superset of what the engine reports. */
  datatype Frame = Frame(grounded: bool, jumpPressed: bool, jumpHeld: bool, time: real, deltaTime: real,
                         impulseGain: real)

  // ---------------------------------------------------------------------
  // HandleCoyoteTime

  /** The grounding update: the fresh raycast becomes isGrounded, and the
      falling edge (grounded before, not now) stamps lastGroundedTime. */
  function CoyoteStep(t: Timers, groundedNow: bool, time: real): (r: Timers)
    ensures r.isGrounded == groundedNow
    ensures r.jumpBufferCounter == t.jumpBufferCounter
    ensures t.isGrounded && !groundedNow ==> r.lastGroundedTime == time
    ensures r.lastGroundedTime != t.lastGroundedTime ==> t.isGrounded && !groundedNow
  {
    if t.isGrounded && !groundedNow then Timers(groundedNow, time, t.jumpBufferCounter)
    else t.(isGrounded := groundedNow)
  }

  // ---------------------------------------------------------------------
  // HandleJumpBuffer

  /** The counter after the buffer update and before any jump: a press
      reloads it, otherwise it loses deltaTime, with no lower bound. */
  function BufferedCounter(s: Settings, counter: real, pressed: bool, deltaTime: real): real
  {
    if pressed then s.jumpBufferTime else counter - deltaTime
  }

  /** Inside the coyote window: at most coyoteTimeThreshold seconds since the
      last falling edge. */
  predicate InCoyoteWindow(s: Settings, t: Timers, time: real)
  {
    time - t.lastGroundedTime <= s.coyoteTimeThreshold
  }

  /** The result of the buffer update: the new state and whether Jump ran. */
  datatype BufferOutcome = BufferOutcome(timers: Timers, fired: bool)

  /** The buffer update and the jump decision. A jump fires exactly when the
      updated counter is positive and the body is grounded or inside the coyote
      window; firing consumes the buffer. */
  function BufferStep(s: Settings, t: Timers, pressed: bool, time: real, deltaTime: real): (r: BufferOutcome)
    ensures r.timers.isGrounded == t.isGrounded
    ensures r.timers.lastGroundedTime == t.lastGroundedTime
    ensures r.fired <==>
      BufferedCounter(s, t.jumpBufferCounter, pressed, deltaTime) > 0.0 &&
      (t.isGrounded || InCoyoteWindow(s, t, time))
    ensures r.fired ==> r.timers.jumpBufferCounter == 0.0
    ensures !r.fired ==> r.timers.jumpBufferCounter == BufferedCounter(s, t.jumpBufferCounter, pressed, deltaTime)
  {
    var counter := BufferedCounter(s, t.jumpBufferCounter, pressed, deltaTime);
    if counter > 0.0 && (t.isGrounded || InCoyoteWindow(s, t, time)) then
      BufferOutcome(t.(jumpBufferCounter := 0.0), true)
    else
      BufferOutcome(t.(jumpBufferCounter := counter), false)
  }

  /** The timer part of one Update: grounding first, then the buffer. So the
      jump decision sees this frame's raycast, and a falling edge this frame
      opens the coyote window before the decision. */
  function TimerStep(s: Settings, t: Timers, f: Frame): (r: BufferOutcome)
    ensures r.timers.isGrounded == f.grounded
    ensures t.isGrounded && !f.grounded ==> r.timers.lastGroundedTime == f.time
    ensures !(t.isGrounded && !f.grounded) ==> r.timers.lastGroundedTime == t.lastGroundedTime
    ensures r.fired <==>
      BufferedCounter(s, t.jumpBufferCounter, f.jumpPressed, f.deltaTime) > 0.0 &&
      (f.grounded || f.time - r.timers.lastGroundedTime <= s.coyoteTimeThreshold)
    ensures r.fired ==> r.timers.jumpBufferCounter == 0.0
    ensures !r.fired ==> r.timers.jumpBufferCounter == BufferedCounter(s, t.jumpBufferCounter, f.jumpPressed, f.deltaTime)
  {
    BufferStep(s, CoyoteStep(t, f.grounded, f.time), f.jumpPressed, f.time, f.deltaTime)
  }

  // ---------------------------------------------------------------------
  // Jump and HandleVariableJump

  /** Jump zeroes the vertical velocity before requesting the impulse. */
  function JumpVelocity(v: Vec2): (r: Vec2)
    ensures r.x == v.x && r.y == 0.0
  {
    Vec2(v.x, 0.0)
  }

  /** The vertical change applied while falling. */
  function FallPull(s: Settings, deltaTime: real): real
  {
    s.gravityY * (s.fallMultiplier - 1.0) * deltaTime
  }

  /** The vertical change applied while rising without the key held. */
  function LowJumpPull(s: Settings, deltaTime: real): real
  {
    s.gravityY * (s.lowJumpMultiplier - 1.0) * deltaTime
  }

  /** The gravity shaping of HandleVariableJump: only the vertical component
      changes, and only while falling, or while rising with the key released. */
  function ShapedVelocity(s: Settings, v: Vec2, held: bool, deltaTime: real): (r: Vec2)
    ensures r.x == v.x
    ensures v.y < 0.0 ==> r.y == v.y + FallPull(s, deltaTime)
    ensures v.y > 0.0 && !held ==> r.y == v.y + LowJumpPull(s, deltaTime)
    ensures v.y == 0.0 || (v.y > 0.0 && held) ==> r == v
  {
    if v.y < 0.0 then Vec2(v.x, v.y + FallPull(s, deltaTime))
    else if v.y > 0.0 && !held then Vec2(v.x, v.y + LowJumpPull(s, deltaTime))
    else v
  }

  /** What one Update produces: the new state, the velocity written back to
      the body and the upward impulse requested from the engine (0 when no
      jump fired). */
  datatype TickOutcome = TickOutcome(timers: Timers, velocity: Vec2, impulse: real)

  /** The AddForce impulse as the script sees it: the vertical velocity grows
      by the engine's gain. */
  function Kicked(v: Vec2, gain: real): Vec2
  {
    Vec2(v.x, v.y + gain)
  }

  /** One whole Update, given the body's velocity at its start. The new state
      is that of the timer step; the impulse is requested exactly when a jump
      fires; the horizontal velocity is never touched. Without a jump the
      shaping works on the velocity as it was; with one, on the zeroed vertical
      velocity plus the engine's impulse gain. */
  function Tick(s: Settings, t: Timers, f: Frame, v: Vec2): (r: TickOutcome)
    ensures r.timers == TimerStep(s, t, f).timers
    ensures r.impulse == if TimerStep(s, t, f).fired then s.jumpForce else 0.0
    ensures r.velocity.x == v.x
    ensures !TimerStep(s, t, f).fired ==> r.velocity == ShapedVelocity(s, v, f.jumpHeld, f.deltaTime)
    ensures TimerStep(s, t, f).fired ==> r.velocity == ShapedVelocity(s, Vec2(v.x, f.impulseGain), f.jumpHeld, f.deltaTime)
  {
    var b := TimerStep(s, t, f);
    var jumped := if b.fired then Kicked(JumpVelocity(v), f.impulseGain) else v;
    TickOutcome(b.timers, ShapedVelocity(s, jumped, f.jumpHeld, f.deltaTime),
                if b.fired then s.jumpForce else 0.0)
  }

  // ---------------------------------------------------------------------
  // Properties of one step

  /** With downward gravity, multipliers above 1 and time passing, each shaping
      branch strictly lowers the vertical velocity, and shaping never raises it. */
  lemma ShapingPullsDown(s: Settings, v: Vec2, held: bool, deltaTime: real)
    requires s.gravityY < 0.0 && s.fallMultiplier > 1.0 && s.lowJumpMultiplier > 1.0 && deltaTime > 0.0
    ensures ShapedVelocity(s, v, held, deltaTime).y <= v.y
    ensures v.y < 0.0 ==> ShapedVelocity(s, v, held, deltaTime).y < v.y
    ensures v.y > 0.0 && !held ==> ShapedVelocity(s, v, held, deltaTime).y < v.y
  {
    NegPosPos(s.gravityY, s.fallMultiplier - 1.0, deltaTime);
    NegPosPos(s.gravityY, s.lowJumpMultiplier - 1.0, deltaTime);
  }

  lemma NegPosPos(a: real, b: real, c: real)
    requires a < 0.0 && b > 0.0 && c > 0.0
    ensures a * b * c < 0.0
  {
    assert a * b < 0.0;
  }

  /** While falling, the engine's own gravity step (gravityY * deltaTime, at
      gravity scale 1) plus the shaping gives gravityY * fallMultiplier. */
  lemma FastFallTotal(s: Settings, v: Vec2, held: bool, deltaTime: real)
    requires v.y < 0.0
    ensures ShapedVelocity(s, v, held, deltaTime).y - v.y + s.gravityY * deltaTime
         == s.gravityY * s.fallMultiplier * deltaTime
  {
    var g, m := s.gravityY, s.fallMultiplier;
    assert g * (m - 1.0) == g * m - g;
    assert (g * m - g) * deltaTime == g * m * deltaTime - g * deltaTime;
  }

  /** Releasing the key while rising pulls harder than holding it. */
  lemma ShortHopCutoff(s: Settings, v: Vec2, deltaTime: real)
    requires s.gravityY < 0.0 && s.lowJumpMultiplier > 1.0 && deltaTime > 0.0 && v.y > 0.0
    ensures ShapedVelocity(s, v, false, deltaTime).y < ShapedVelocity(s, v, true, deltaTime).y
  {
    NegPosPos(s.gravityY, s.lowJumpMultiplier - 1.0, deltaTime);
  }

  /** In the frame a jump fires, the shaping runs after the jump, on the zeroed
      vertical velocity plus whatever the engine has already made of the
      impulse. If the engine defers the impulse, the frame ends at (vx, 0). If
      it applies it at once, a jump fired with the key not held (a buffered
      tap) is already cut short in its own frame, and one with
      the key held keeps the full gain. */
  lemma FiringFrameVelocity(s: Settings, t: Timers, f: Frame, v: Vec2)
    requires TimerStep(s, t, f).fired
    ensures Tick(s, t, f, v).impulse == s.jumpForce
    ensures f.impulseGain == 0.0 ==> Tick(s, t, f, v).velocity == Vec2(v.x, 0.0)
    ensures f.impulseGain > 0.0 && !f.jumpHeld ==>
      Tick(s, t, f, v).velocity == Vec2(v.x, f.impulseGain + LowJumpPull(s, f.deltaTime))
    ensures f.impulseGain > 0.0 && f.jumpHeld ==> Tick(s, t, f, v).velocity == Vec2(v.x, f.impulseGain)
  {
  }

  /** Airborne on the previous frame and this one, and outside the coyote
      window: no buffered press can fire a jump. */
  lemma NoJumpPastCoyoteWindow(s: Settings, t: Timers, f: Frame)
    requires !t.isGrounded && !f.grounded
    requires f.time - t.lastGroundedTime > s.coyoteTimeThreshold
    ensures !TimerStep(s, t, f).fired
  {
  }

  /** A fired jump leaves the counter at exactly 0, so the next frame without a
      press and with time passing cannot fire again. */
  lemma SingleFire(s: Settings, t: Timers, f: Frame, g: Frame)
    requires TimerStep(s, t, f).fired
    requires !g.jumpPressed && g.deltaTime > 0.0
    ensures TimerStep(s, t, f).timers.jumpBufferCounter == 0.0
    ensures !TimerStep(s, TimerStep(s, t, f).timers, g).fired
    ensures TimerStep(s, TimerStep(s, t, f).timers, g).timers.jumpBufferCounter < 0.0
  {
  }

  // ---------------------------------------------------------------------
  // Runs of frames

  /** The state after a run of frames. */
  function Run(s: Settings, t: Timers, frames: seq<Frame>): Timers
    decreases |frames|
  {
    if frames == [] then t else Run(s, TimerStep(s, t, frames[0]).timers, frames[1..])
  }

  /** How many jumps a run of frames fires. */
  function Fires(s: Settings, t: Timers, frames: seq<Frame>): nat
    decreases |frames|
  {
    if frames == [] then 0
    else
      var b := TimerStep(s, t, frames[0]);
      (if b.fired then 1 else 0) + Fires(s, b.timers, frames[1..])
  }

  /** How many presses of the jump key a run of frames holds. */
  function Presses(frames: seq<Frame>): nat
  {
    if frames == [] then 0 else (if frames[0].jumpPressed then 1 else 0) + Presses(frames[1..])
  }

  /** The time a run of frames covers. */
  function Elapsed(frames: seq<Frame>): real
  {
    if frames == [] then 0.0 else frames[0].deltaTime + Elapsed(frames[1..])
  }

  /** 1 when a buffered press is still live. */
  function Live(t: Timers): nat
  {
    if t.jumpBufferCounter > 0.0 then 1 else 0
  }

  predicate TimeNeverRunsBack(frames: seq<Frame>)
  {
    forall i | 0 <= i < |frames| :: frames[i].deltaTime >= 0.0
  }

  predicate NoPresses(frames: seq<Frame>)
  {
    forall i | 0 <= i < |frames| :: !frames[i].jumpPressed
  }

  /** At most one jump per press: as long as deltaTime is never negative, the
      jumps fired plus a still-live buffer never exceed the presses plus the
      buffer live at the start. */
  lemma {:induction false} FiresAtMostPresses(s: Settings, t: Timers, frames: seq<Frame>)
    requires TimeNeverRunsBack(frames)
    ensures Fires(s, t, frames) + Live(Run(s, t, frames)) <= Presses(frames) + Live(t)
    decreases |frames|
  {
    if frames != [] {
      var b := TimerStep(s, t, frames[0]);
      assert (if b.fired then 1 else 0) + Live(b.timers) <= (if frames[0].jumpPressed then 1 else 0) + Live(t);
      FiresAtMostPresses(s, b.timers, frames[1..]);
    }
  }

  /** A freshly started component fires no more jumps than the key is pressed. */
  lemma FreshFiresAtMostPresses(s: Settings, frames: seq<Frame>)
    requires TimeNeverRunsBack(frames)
    ensures Fires(s, Initial, frames) <= Presses(frames)
  {
    FiresAtMostPresses(s, Initial, frames);
  }

  /** Without presses, a consumed or expired buffer never fires again and the
      counter stays at or below 0. */
  lemma {:induction false} NoPressNoJump(s: Settings, t: Timers, frames: seq<Frame>)
    requires t.jumpBufferCounter <= 0.0
    requires NoPresses(frames) && TimeNeverRunsBack(frames)
    ensures Fires(s, t, frames) == 0
    ensures Run(s, t, frames).jumpBufferCounter <= 0.0
    decreases |frames|
  {
    if frames != [] {
      NoPressNoJump(s, TimerStep(s, t, frames[0]).timers, frames[1..]);
    }
  }

  /** After a jump fires, no further jump fires until the key is pressed again. */
  lemma NoRefireUntilPress(s: Settings, t: Timers, f: Frame, frames: seq<Frame>)
    requires TimerStep(s, t, f).fired
    requires NoPresses(frames) && TimeNeverRunsBack(frames)
    ensures Fires(s, t, [f] + frames) == 1
  {
    assert ([f] + frames)[1..] == frames;
    NoPressNoJump(s, TimerStep(s, t, f).timers, frames);
  }

  /** Without presses and until a jump fires, the counter falls by exactly the
      elapsed time, with no floor at 0. */
  lemma {:induction false} BufferDecay(s: Settings, t: Timers, frames: seq<Frame>)
    requires NoPresses(frames) && Fires(s, t, frames) == 0
    ensures Run(s, t, frames).jumpBufferCounter == t.jumpBufferCounter - Elapsed(frames)
    decreases |frames|
  {
    if frames != [] {
      BufferDecay(s, TimerStep(s, t, frames[0]).timers, frames[1..]);
    }
  }

  /** The input buffer: a press remembered for less than jumpBufferTime fires
      the jump on the frame the body lands. */
  lemma BufferedPressFiresOnLanding(s: Settings, t: Timers, frames: seq<Frame>, landing: Frame)
    requires NoPresses(frames) && Fires(s, t, frames) == 0
    requires !landing.jumpPressed && landing.grounded
    requires t.jumpBufferCounter - Elapsed(frames) - landing.deltaTime > 0.0
    ensures TimerStep(s, Run(s, t, frames), landing).fired
  {
    BufferDecay(s, t, frames);
  }

  /** Coyote time: a body that walks off the ground and presses within the
      coyote window jumps although it is no longer grounded. */
  lemma CoyoteGrace(s: Settings, t: Timers, leave: Frame, press: Frame)
    requires t.isGrounded && !leave.grounded && !press.grounded
    requires press.jumpPressed && s.jumpBufferTime > 0.0
    requires press.time - leave.time <= s.coyoteTimeThreshold
    ensures TimerStep(s, TimerStep(s, t, leave).timers, press).fired
  {
  }

  /** The coyote window is not closed by a jump: a jump from the ground, then
      the falling edge of the take-off, then a second press inside the window
      fires a second jump in mid-air. */
  lemma SecondJumpAfterTakeOff(s: Settings, t: Timers, jump: Frame, takeOff: Frame, again: Frame)
    requires s.jumpBufferTime > 0.0
    requires t.isGrounded && jump.grounded && jump.jumpPressed
    requires !takeOff.grounded && !again.grounded && again.jumpPressed
    requires again.time - takeOff.time <= s.coyoteTimeThreshold
    ensures Fires(s, t, [jump, takeOff, again]) >= 2
  {
    var t1 := TimerStep(s, t, jump);
    var t2 := TimerStep(s, t1.timers, takeOff);
    var t3 := TimerStep(s, t2.timers, again);
    assert t1.fired && t3.fired;
    assert [jump, takeOff, again][1..] == [takeOff, again];
    assert [takeOff, again][1..] == [again];
    assert Fires(s, t2.timers, [again]) == 1;
  }

  /** Before any falling edge the stamp is still 0, so in the first
      coyoteTimeThreshold seconds a press fires although the body was never
      grounded. */
  lemma FreshCoyoteWindow(s: Settings, f: Frame)
    requires !f.grounded && f.jumpPressed && s.jumpBufferTime > 0.0
    requires f.time <= s.coyoteTimeThreshold
    ensures TimerStep(s, Initial, f).fired
  {
  }

  // ---------------------------------------------------------------------
  // The component

  class AdvancedJump {
    const settings: Settings
    /** The Rigidbody2D found at Start; null when the object has none. */
    const rb: Body?
    var isGrounded: bool
    var lastGroundedTime: real
    var jumpBufferCounter: real

    function State(): Timers
      reads this
    {
      Timers(isGrounded, lastGroundedTime, jumpBufferCounter)
    }

    /** Start: the body is looked up by the host and passed in. */
    constructor (settings: Settings, rb: Body?)
      ensures this.settings == settings && this.rb == rb
      ensures State() == Initial
    {
      this.settings := settings;
      this.rb := rb;
      isGrounded, lastGroundedTime, jumpBufferCounter := false, 0.0, 0.0;
    }

    method HandleCoyoteTime(groundedNow: bool, time: real)
      modifies this
      ensures State() == CoyoteStep(old(State()), groundedNow, time)
    {
      var wasGrounded := isGrounded;
      isGrounded := groundedNow;
      if wasGrounded && !isGrounded {
        lastGroundedTime := time;
      }
    }

    /** Zeroes the vertical velocity, then requests the upward impulse, which
        the engine turns into a vertical gain (see Frame). Returns the impulse
        requested. */
    method Jump(impulseGain: real) returns (impulse: real)
      modifies rb
      ensures rb != null ==> rb.velocity == Kicked(JumpVelocity(old(rb.velocity)), impulseGain)
      ensures rb != null ==> impulse == settings.jumpForce
      ensures rb == null ==> impulse == 0.0
    {
      if rb == null {
        return 0.0;
      }
      rb.velocity := Vec2(rb.velocity.x, 0.0);
      rb.velocity := Kicked(rb.velocity, impulseGain);
      impulse := settings.jumpForce;
    }

    method HandleJumpBuffer(pressed: bool, time: real, deltaTime: real, impulseGain: real) returns (impulse: real)
      modifies this, rb
      ensures State() == BufferStep(settings, old(State()), pressed, time, deltaTime).timers
      ensures BufferStep(settings, old(State()), pressed, time, deltaTime).fired && rb != null ==>
        rb.velocity == Kicked(JumpVelocity(old(rb.velocity)), impulseGain) && impulse == settings.jumpForce
      ensures !BufferStep(settings, old(State()), pressed, time, deltaTime).fired || rb == null ==>
        impulse == 0.0
      ensures !BufferStep(settings, old(State()), pressed, time, deltaTime).fired && rb != null ==>
        rb.velocity == old(rb.velocity)
    {
      if pressed {
        jumpBufferCounter := settings.jumpBufferTime;
      } else {
        jumpBufferCounter := jumpBufferCounter - deltaTime;
      }
      var canCoyoteJump := time - lastGroundedTime <= settings.coyoteTimeThreshold;
      impulse := 0.0;
      if jumpBufferCounter > 0.0 && (isGrounded || canCoyoteJump) {
        impulse := Jump(impulseGain);
        jumpBufferCounter := 0.0;
      }
    }

    method HandleVariableJump(held: bool, deltaTime: real)
      modifies rb
      ensures rb != null ==> rb.velocity == ShapedVelocity(settings, old(rb.velocity), held, deltaTime)
    {
      if rb == null {
        return;
      }
      if rb.velocity.y < 0.0 {
        rb.velocity := Vec2(rb.velocity.x, rb.velocity.y + FallPull(settings, deltaTime));
      } else if rb.velocity.y > 0.0 && !held {
        rb.velocity := Vec2(rb.velocity.x, rb.velocity.y + LowJumpPull(settings, deltaTime));
      }
    }

    /** One frame: grounding, then buffer and jump, then gravity shaping. */
    method Update(f: Frame) returns (impulse: real)
      modifies this, rb
      ensures rb == null ==> State() == old(State()) && impulse == 0.0
      ensures rb != null ==>
        var o := Tick(settings, old(State()), f, old(rb.velocity));
        State() == o.timers && rb.velocity == o.velocity && impulse == o.impulse
    {
      if rb == null {
        return 0.0;
      }
      HandleCoyoteTime(f.grounded, f.time);
      impulse := HandleJumpBuffer(f.jumpPressed, f.time, f.deltaTime, f.impulseGain);
      HandleVariableJump(f.jumpHeld, f.deltaTime);
    }
  }
}
