# Unity 2D course scripts: a verified model of their decision logic

The repository is a set of short Unity component scripts. This project models
the ones that hold decisions and small state machines, with the engine's
queries (ground raycast, key state, `Time.time`, `Time.deltaTime`, distances,
directions) turned into parameters and floats modelled as `real`:

- `Jump` — the jump with coyote time, input buffer and variable height
  (`AdvancedJump`). Each frame runs the grounding update, then the buffer and
  jump decision, then the gravity shaping. Pure step functions specify each
  step. The class `Jump.AdvancedJump` performs the steps on its fields and on
  the rigid body, and is proved against them. Lemmas over runs of frames
  prove the following:
  - at most one jump fires per press;
  - without presses the buffer falls by exactly the elapsed time;
  - a press made shortly before landing fires on landing.
- `Platformer` — `Simple2DPlayerController`: the horizontal velocity, the flip
  rule that keeps `facingRight` in step with the sign of the x scale, and the
  jump that needs the ground.
- `Enemy` — `SimpleEnemyAI`: the attack / chase / idle decision on distance
  and the chase step.
- `Keyboard` — `BasicInput`: held keys mapped to axes in {-1, 0, 1}, the
  velocity and position update, and the independent action keys.
- `Camera` — `SimpleCameraFollow`: the target point (offset, own depth,
  optional clamp), the interpolation towards it, `ResetCamera` and `SetTarget`.
- `Scoring` — the fundamentals `GameManager`: score and lives as 32-bit C#
  ints, and game over when lives reach 0.
- `Pausing` — the UI `GameManager`: pause and resume through the global time
  scale, toggled by Escape.
- `Singleton` — the first-wins `Instance` registration that both managers
  perform in `Awake`.
- `Engine` — the value types (`Vec2`, `Vec3`), `Mathf.Clamp`, `Vector3.Lerp`
  and the engine objects the scripts change: the rigid body and the
  transform.

The rigid body (`Body`), a followed transform (`Transform`) and the time scale
(`Pausing.TimeSettings`) are objects. The engine and other scripts change them
too, so each script's class updates them in place through `modifies`. A
`null` body reproduces the scripts' `rb == null` early returns.

Three facts about the jump code that the model keeps as they are:
- `AdvancedJump.cs:91` subtracts the frame time from the buffer counter with
  no floor, so the counter goes negative (`Jump.BufferDecay`).
- No setting is validated: gravity, multipliers, thresholds and the jump force
  take any value, and the lemmas that need a sign state it as a precondition.
- Every frame runs with whatever `deltaTime` it gets; none is skipped.

## Model

| member | source | states |
|---|---|---|
| `Jump.CoyoteStep` | lesson3-physics-collision/example/AdvancedJump.cs:69-80 | isGrounded becomes the fresh raycast. lastGroundedTime becomes the current time on a falling edge (grounded last frame, not now). It changes on no other frame. The buffer is untouched. |
| `Jump.TimerStep` | lesson3-physics-collision/example/AdvancedJump.cs:42-43 | The grounding update runs before the buffer. So isGrounded is this frame's raycast, a falling edge this frame stamps the time before the decision, and the jump fires iff the updated counter is positive and the body is grounded now or within coyoteTimeThreshold of the (possibly new) stamp. |
| `Jump.Tick` | lesson3-physics-collision/example/AdvancedJump.cs:37-48 | One Update: the state is the timer step's. The impulse is requested exactly when a jump fires. vx never changes. Without a jump the shaping works on the incoming velocity; with one, on the zeroed vy plus the engine's impulse gain. |
| `Jump.BufferStep` | lesson3-physics-collision/example/AdvancedJump.cs:82-101 | A jump fires iff the counter is positive after the update and the body is grounded or inside the coyote window. The update reloads the counter to jumpBufferTime on a press and otherwise subtracts deltaTime. A fired jump leaves the counter at exactly 0; otherwise it keeps the updated value. The grounding fields are untouched. |
| `Jump.JumpVelocity` | lesson3-physics-collision/example/AdvancedJump.cs:112 | Jump keeps the horizontal velocity and zeroes the vertical one. |
| `Jump.ShapedVelocity` | lesson3-physics-collision/example/AdvancedJump.cs:50-67 | Falling adds gravity.y*(fallMultiplier-1)*dt to vy. Rising without the key held adds gravity.y*(lowJumpMultiplier-1)*dt. Otherwise the velocity is unchanged. vx never changes. |
| `Jump.ShapingPullsDown` | lesson3-physics-collision/example/AdvancedJump.cs:57-66 | Assume downward gravity, multipliers above 1 and dt > 0. Then each shaping branch strictly lowers vy, and shaping never raises it. |
| `Jump.FastFallTotal` | lesson3-physics-collision/example/AdvancedJump.cs:57-61 | While falling, the engine's gravity step plus the shaping gives gravity.y*fallMultiplier*dt in total. |
| `Jump.ShortHopCutoff` | lesson3-physics-collision/example/AdvancedJump.cs:62-66 | While rising, a released key gives a lower vy than a held one, for the same dt. |
| `Jump.FiringFrameVelocity` | lesson3-physics-collision/example/AdvancedJump.cs:37-48 | In the frame a jump fires, the impulse jumpForce is requested and the shaping runs on (vx, gain), where gain is what the engine has already made of the impulse. A deferred impulse (gain 0) leaves (vx, 0). An immediate one with the key not held is cut short in the same frame, to gain + gravity.y*(lowJumpMultiplier-1)*dt; with the key held it keeps the full gain. |
| `Jump.NoJumpPastCoyoteWindow` | lesson3-physics-collision/example/AdvancedJump.cs:95-96 | Airborne last frame and this one, and past the coyote window: no jump fires. |
| `Jump.SingleFire` | lesson3-physics-collision/example/AdvancedJump.cs:96-99 | After a jump the counter is exactly 0. The next frame with no press and dt > 0 cannot fire, and leaves the counter negative. |
| `Jump.FiresAtMostPresses` | lesson3-physics-collision/example/AdvancedJump.cs:82-101 | Take any run of frames with dt >= 0. The jumps fired plus a still-live buffer never exceed the presses plus the buffer live at the start: at most one jump per press. |
| `Jump.FreshFiresAtMostPresses` | lesson3-physics-collision/example/AdvancedJump.cs:22-24 | From the fields' initial values, a run with dt >= 0 fires no more jumps than there are presses. |
| `Jump.NoPressNoJump` | lesson3-physics-collision/example/AdvancedJump.cs:85-99 | Start from a consumed or expired buffer, with no presses and dt >= 0. Then no jump fires and the counter stays at or below 0. |
| `Jump.NoRefireUntilPress` | lesson3-physics-collision/example/AdvancedJump.cs:96-99 | After a jump fires, no further jump fires until the key is pressed again. |
| `Jump.BufferDecay` | lesson3-physics-collision/example/AdvancedJump.cs:89-92 | With no presses and no jump, the counter falls by exactly the elapsed time. It has no floor. |
| `Jump.BufferedPressFiresOnLanding` | lesson3-physics-collision/example/AdvancedJump.cs:85-100 | A press that is still live when the body lands fires the jump on the landing frame (the input buffer). |
| `Jump.CoyoteGrace` | lesson3-physics-collision/example/AdvancedJump.cs:72-96 | A body walks off the ground and the key is pressed within coyoteTimeThreshold of that frame. The jump fires although the body is not grounded. |
| `Jump.SecondJumpAfterTakeOff` | lesson3-physics-collision/example/AdvancedJump.cs:72-99 | The coyote window is not closed by a jump. A jump from the ground is followed by the take-off's falling edge; a press inside the window then fires a second jump in mid-air. |
| `Jump.FreshCoyoteWindow` | lesson3-physics-collision/example/AdvancedJump.cs:95-96 | The stamp starts at 0. So in the first coyoteTimeThreshold seconds a press fires although the body has never been grounded. |
| `Jump.AdvancedJump.constructor` | lesson3-physics-collision/example/AdvancedJump.cs:26-35 | Start: the body found by the host is kept. Not grounded, stamp 0, counter 0. |
| `Jump.AdvancedJump.HandleCoyoteTime` | lesson3-physics-collision/example/AdvancedJump.cs:69-80 | Updates the fields exactly as `CoyoteStep` says. |
| `Jump.AdvancedJump.Jump` | lesson3-physics-collision/example/AdvancedJump.cs:108-114 | With a body: zeroes vy, keeps vx and requests the impulse jumpForce, which raises vy by the engine's gain. Without one: does nothing. |
| `Jump.AdvancedJump.HandleJumpBuffer` | lesson3-physics-collision/example/AdvancedJump.cs:82-101 | Updates the counter as `BufferStep` says. Runs Jump exactly when `BufferStep` fires; otherwise the velocity is untouched. |
| `Jump.AdvancedJump.HandleVariableJump` | lesson3-physics-collision/example/AdvancedJump.cs:50-67 | With a body, the velocity becomes `ShapedVelocity` of the old one. |
| `Jump.AdvancedJump.Update` | lesson3-physics-collision/example/AdvancedJump.cs:37-48 | Without a body, nothing changes. With one, the fields, the velocity and the requested impulse are those of `Tick`: grounding, then buffer and jump, then shaping, in that order. |
| `Platformer.FacingAfter` | extras/common-scripts-library/Simple2DPlayerController.cs:73-80 | The facing after HandleMovement is the old one or its flip. Zero input keeps it. A scale whose sign agreed with facingRight still agrees. Only scale.x can change. |
| `Platformer.Flipped` | extras/common-scripts-library/Simple2DPlayerController.cs:109-115 | Flip toggles facingRight and negates scale.x; scale.y and scale.z are kept. |
| `Platformer.MovedVelocity` | extras/common-scripts-library/Simple2DPlayerController.cs:70 | vx = input × moveSpeed; vy is kept. |
| `Platformer.JumpedVelocity` | extras/common-scripts-library/Simple2DPlayerController.cs:91-94 | vy becomes jumpForce only when the button was pressed this frame and the body is grounded. vx is always kept, and otherwise the velocity is unchanged. |
| `Platformer.FlipTwice` | extras/common-scripts-library/Simple2DPlayerController.cs:109-115 | Two flips restore the original facing and scale. |
| `Platformer.FlipRule` | extras/common-scripts-library/Simple2DPlayerController.cs:73-80 | A flip happens iff the input is positive while facing left, or negative while facing right. Zero input never flips. After a nonzero input, facingRight == (input > 0). |
| `Platformer.AgreementAlongRun` | extras/common-scripts-library/Simple2DPlayerController.cs:109-115 | Suppose the sign of scale.x agrees with facingRight. Then it keeps agreeing after any run of horizontal inputs. |
| `Platformer.FacesLastInput` | extras/common-scripts-library/Simple2DPlayerController.cs:73-80 | After a run, the sprite faces the sign of the last nonzero input. Without one, the facing is unchanged. |
| `Platformer.Simple2DPlayerController.constructor` | extras/common-scripts-library/Simple2DPlayerController.cs:20 | The controller starts facing right and not grounded. |
| `Platformer.Simple2DPlayerController.Flip` | extras/common-scripts-library/Simple2DPlayerController.cs:109-115 | The fields change exactly as `Flipped` says. |
| `Platformer.Simple2DPlayerController.HandleMovement` | extras/common-scripts-library/Simple2DPlayerController.cs:63-81 | Without a body, nothing changes. With one, the velocity is `MovedVelocity` and the facing is `FacingAfter`. |
| `Platformer.Simple2DPlayerController.HandleJump` | extras/common-scripts-library/Simple2DPlayerController.cs:83-99 | isGrounded becomes the ground test, and the velocity becomes `JumpedVelocity`. The facing is untouched. |
| `Platformer.Simple2DPlayerController.Update` | extras/common-scripts-library/Simple2DPlayerController.cs:54-61 | Without a body, nothing changes. Otherwise movement and flip run, then the ground test and the jump, on the moved velocity. |
| `Enemy.Decide` | lesson0-game-development-fundamentals/example/SimpleEnemyAI.cs:47-54 | Attack iff distance ≤ attackRange, so attack wins. Chase iff attackRange < distance ≤ detectionRange. Idle iff the distance exceeds both ranges. Exactly one is chosen. |
| `Enemy.ChaseVelocity` | lesson0-game-development-fundamentals/example/SimpleEnemyAI.cs:62-65 | With a body, vx = direction.x × moveSpeed and vy is kept. |
| `Enemy.ChasePosition` | lesson0-game-development-fundamentals/example/SimpleEnemyAI.cs:66-69 | Without a body, the position moves along the direction lifted to 3D, so its depth is kept. |
| `Enemy.ChaseStep` | lesson0-game-development-fundamentals/example/SimpleEnemyAI.cs:68 | Each axis advances by direction × moveSpeed × dt. |
| `Enemy.NoChaseWithoutGap` | lesson0-game-development-fundamentals/example/SimpleEnemyAI.cs:47-54 | When attackRange ≥ detectionRange the enemy never chases. |
| `Enemy.CloserIsNoCalmer` | lesson0-game-development-fundamentals/example/SimpleEnemyAI.cs:47-54 | Moving closer keeps an attack an attack, and never turns a chase into idling. |
| `Enemy.SimpleEnemyAI.constructor` | lesson0-game-development-fundamentals/example/SimpleEnemyAI.cs:19-38 | Start: an unassigned target falls back to the player the host found, which may be none. |
| `Enemy.SimpleEnemyAI.ChasePlayer` | lesson0-game-development-fundamentals/example/SimpleEnemyAI.cs:57-70 | With a body, sets the velocity by `ChaseVelocity` and leaves the position. Without one, moves the position by `ChasePosition`. |
| `Enemy.SimpleEnemyAI.Update` | lesson0-game-development-fundamentals/example/SimpleEnemyAI.cs:40-55 | With no target it does nothing. Otherwise it returns `Decide`, and only a chase changes the velocity or position. The depth never changes. |
| `Keyboard.Horizontal` | lesson1-unity-basics/example/BasicInput.cs:27-31 | -1 iff A or Left is held. 1 iff neither is held and D or Right is. Otherwise 0, so left wins. |
| `Keyboard.Vertical` | lesson1-unity-basics/example/BasicInput.cs:34-38 | 1 iff W or Up is held. -1 iff neither is held and S or Down is. Otherwise 0, so up wins. |
| `Keyboard.Velocity` | lesson1-unity-basics/example/BasicInput.cs:45-46 | The velocity is (h × moveSpeed, v × moveSpeed, 0); its z is always 0. |
| `Keyboard.Triggered` | lesson1-unity-basics/example/BasicInput.cs:58-77 | Jump iff Space. Attack iff X or mouse 0. Interact iff E. Each key is tested on its own, so several actions can fire in one frame. |
| `Keyboard.StillWithoutKeys` | lesson1-unity-basics/example/BasicInput.cs:45-49 | With no movement key held, the velocity is zero and the position is unchanged. |
| `Keyboard.VelocityComponents` | lesson1-unity-basics/example/BasicInput.cs:27-46 | Each velocity component is -moveSpeed, 0 or moveSpeed. |
| `Keyboard.BasicInput.constructor` | lesson1-unity-basics/example/BasicInput.cs:16 | currentVelocity starts at zero. |
| `Keyboard.BasicInput.HandleMovementInput` | lesson1-unity-basics/example/BasicInput.cs:24-56 | currentVelocity becomes `Velocity`, and the position advances by currentVelocity × dt. |
| `Keyboard.BasicInput.HandleActionInput` | lesson1-unity-basics/example/BasicInput.cs:58-77 | Returns exactly the actions `Triggered` names. |
| `Keyboard.BasicInput.Update` | lesson1-unity-basics/example/BasicInput.cs:18-22 | Movement, then actions, with the effects of both. |
| `Engine.Clamp` | lesson1-unity-basics/example/SimpleCameraFollow.cs:59-60 | Mathf.Clamp: a value below min gives min; otherwise one above max gives max; a value in [min, max] is kept. With min ≤ max the result lies in [min, max]. |
| `Engine.Clamp01` | lesson1-unity-basics/example/SimpleCameraFollow.cs:64-68 | Lerp's parameter: below 0 gives 0, above 1 gives 1, inside [0, 1] it is kept. |
| `Engine.LerpReal` | lesson1-unity-basics/example/SimpleCameraFollow.cs:64-68 | One coordinate of Vector3.Lerp: a parameter at or below 0 gives the start, one at or above 1 gives the end. |
| `Engine.Lerp` | lesson1-unity-basics/example/SimpleCameraFollow.cs:64-68 | Vector3.Lerp stays at its start for t ≤ 0 and reaches its end for t ≥ 1. |
| `Engine.LerpRealBetween` | lesson1-unity-basics/example/SimpleCameraFollow.cs:64-68 | The interpolated coordinate lies between its endpoints, and is one of them when they coincide. |
| `Engine.Lift` | lesson0-game-development-fundamentals/example/SimpleEnemyAI.cs:68 | The cast of a 2D vector to 3D keeps x and y and sets z to 0. |
| `Camera.TargetPoint` | lesson1-unity-basics/example/SimpleCameraFollow.cs:52-61 | The result is target + offset with z replaced by the camera's z. With bounds on, x and y are each clamped on their own axis to [minBounds, maxBounds]; with min ≤ max they lie within the bounds. With bounds off, nothing is clamped. A point already inside is not moved. |
| `Camera.FollowStep` | lesson1-unity-basics/example/SimpleCameraFollow.cs:53-68 | One LateUpdate with a target keeps the camera's z. A step followSpeed*dt of at most 0 leaves the camera in place; one of at least 1 lands exactly on the target point. |
| `Camera.FollowStepProperties` | lesson1-unity-basics/example/SimpleCameraFollow.cs:64-68 | One follow step keeps the camera's z, because both endpoints share it. Each of x and y lands between the camera and the target point. Inside proper bounds, the camera stays inside. |
| `Camera.FollowKeepsDepth` | lesson1-unity-basics/example/SimpleCameraFollow.cs:53-68 | Over any run of LateUpdates, with or without a target, the camera's z never changes. |
| `Camera.FollowStaysInBounds` | lesson1-unity-basics/example/SimpleCameraFollow.cs:57-68 | Take proper bounds that are on and a camera starting inside them. The camera stays inside over any run, wherever the target goes. |
| `Camera.SimpleCameraFollow.constructor` | lesson1-unity-basics/example/SimpleCameraFollow.cs:25-46 | Start records the initial position. |
| `Camera.SimpleCameraFollow.LateUpdate` | lesson1-unity-basics/example/SimpleCameraFollow.cs:48-70 | Without a target the position is unchanged. With one, it becomes the Lerp towards `TargetPoint` by followSpeed × dt. Its z is kept. |
| `Camera.SimpleCameraFollow.ResetCamera` | lesson1-unity-basics/example/SimpleCameraFollow.cs:75-78 | The position is restored to exactly the one recorded at Start. |
| `Camera.SimpleCameraFollow.SetTarget` | lesson1-unity-basics/example/SimpleCameraFollow.cs:83-86 | The target is replaced; nothing else may change. |
| `Singleton.Register` | lesson0-game-development-fundamentals/example/GameManager.cs:16-31 | Awake sets Instance to itself only when Instance is unset. An existing Instance is kept. |
| `Singleton.InstanceIsSticky` | lesson0-game-development-fundamentals/example/GameManager.cs:19-30 | Once Instance is set, no sequence of later Awakes changes it. |
| `Singleton.FirstAwakeWins` | lesson5-ui-complete-game/example/GameManager.cs:16-24 | Starting unset, the first manager to wake is the Instance after any number of Awakes. |
| `Singleton.Registry.constructor` | lesson0-game-development-fundamentals/example/GameManager.cs:14 | Instance starts unset. |
| `Singleton.Registry.Claim` | lesson0-game-development-fundamentals/example/GameManager.cs:19-30 | Instance follows `Register`. The caller is kept exactly when it registered; otherwise the host destroys it. |
| `Scoring.Wrap` | lesson0-game-development-fundamentals/example/GameManager.cs:41 | C# int arithmetic: the result is congruent to the exact value modulo 2^32, and equal to it when it fits. |
| `Scoring.LossesCount` | lesson0-game-development-fundamentals/example/GameManager.cs:48-50 | While nothing wraps, n calls of LoseLife take exactly n lives. |
| `Scoring.GameOverFromThirdLoss` | lesson0-game-development-fundamentals/example/GameManager.cs:48-56 | From 3 lives, the k-th LoseLife signals game over iff k ≥ 3. So it fires on every loss after the third, up to the wrap. |
| `Scoring.LossWrapsAtMinimum` | lesson0-game-development-fundamentals/example/GameManager.cs:50-53 | One loss at the smallest int wraps lives to the largest, and game over is no longer signalled. |
| `Scoring.GameManager.constructor` | lesson0-game-development-fundamentals/example/GameManager.cs:10-11 | The manager starts with score 0 and lives 3. |
| `Scoring.GameManager.Awake` | lesson0-game-development-fundamentals/example/GameManager.cs:16-31 | The first-wins registration: the manager stays alive exactly when it became the Instance. |
| `Scoring.GameManager.AddScore` | lesson0-game-development-fundamentals/example/GameManager.cs:39-46 | score increases by exactly points (no sign check) unless it wraps. lives is untouched. |
| `Scoring.GameManager.LoseLife` | lesson0-game-development-fundamentals/example/GameManager.cs:48-57 | lives decreases by exactly 1 unless it wraps; it may go negative. score is untouched. Game over is signalled iff lives ≤ 0 afterwards. |
| `Scoring.GameManager.GetScore` | lesson0-game-development-fundamentals/example/GameManager.cs:59-62 | Returns the current score and changes nothing. |
| `Scoring.GameManager.GetLives` | lesson0-game-development-fundamentals/example/GameManager.cs:64-67 | Returns the current lives and changes nothing. |
| `Pausing.Paused` | lesson5-ui-complete-game/example/GameManager.cs:43-50 | From running: paused, with time scale 0. When already paused: unchanged. |
| `Pausing.Resumed` | lesson5-ui-complete-game/example/GameManager.cs:52-59 | From paused: running, with time scale 1. When running: unchanged. |
| `Pausing.Escaped` | lesson5-ui-complete-game/example/GameManager.cs:30-40 | An Escape press flips isPaused. |
| `Pausing.Idempotent` | lesson5-ui-complete-game/example/GameManager.cs:43-57 | Pausing twice equals pausing once, and likewise for resuming. |
| `Pausing.EscapeTwice` | lesson5-ui-complete-game/example/GameManager.cs:30-40 | Two Escape presses restore isPaused. They restore the time scale too when it matched the flag. |
| `Pausing.CoupledAlongReplay` | lesson5-ui-complete-game/example/GameManager.cs:43-57 | Suppose the time scale is 0 when paused and 1 when running, and nothing else writes it. Then the relation survives any sequence of pauses, resumes and Escapes, so time scale = 0 ⇔ paused. |
| `Pausing.FromStart` | lesson5-ui-complete-game/example/GameManager.cs:11 | A game that starts running at time scale 1 has time scale 0 exactly when paused, after any sequence of calls. |
| `Pausing.TimeSettings.constructor` | lesson5-ui-complete-game/example/GameManager.cs:57 | The global time scale starts at 1, the value ResumeGame restores. |
| `Pausing.GameManager.constructor` | lesson5-ui-complete-game/example/GameManager.cs:11 | The manager starts unpaused. |
| `Pausing.GameManager.Awake` | lesson5-ui-complete-game/example/GameManager.cs:13-25 | The same first-wins registration as the fundamentals manager. |
| `Pausing.GameManager.PauseGame` | lesson5-ui-complete-game/example/GameManager.cs:43-50 | The flag and the time scale change as `Paused` says. |
| `Pausing.GameManager.ResumeGame` | lesson5-ui-complete-game/example/GameManager.cs:52-59 | The flag and the time scale change as `Resumed` says. |
| `Pausing.GameManager.Update` | lesson5-ui-complete-game/example/GameManager.cs:27-41 | An Escape press changes the state as `Escaped` says; without one, nothing changes. |
| `Pausing.GameManager.IsPaused` | lesson5-ui-complete-game/example/GameManager.cs:61-64 | Reports isPaused and changes nothing. |

## Left out

- Engine queries become parameters: the ground raycast and overlap test, key and button state, `Time.time` and `Time.deltaTime`. So do `Vector2.Distance` and the normalised direction to the enemy's target, and the player object found by tag.
- `Rigidbody2D.AddForce` in impulse mode is modelled by what the script can observe of it: the jump returns the requested impulse (jumpForce), and the rise in vertical velocity that the script reads back later in the same frame is a per-frame input (`impulseGain`). That covers both an engine that applies the impulse at once (jumpForce / mass) and one that defers it (0). Mass and the physics step themselves are not modelled.
- The engine's own physics between frames (gravity integration, collisions) is not modelled. The body's velocity is an object the host may change between calls.
- Logging, gizmos, `OnGUI`, animator parameters and triggers, and the camera's orthographic size are not modelled. Neither are `DontDestroyOnLoad` and `Destroy`; the registration reports whether the manager is kept instead. The registered Instance is assumed to live for the whole run: a destroyed Instance, which Unity's overloaded `==` would compare equal to null so that a later Awake replaces it, is not modelled (`Singleton.InstanceIsSticky` relies on this).
- `Simple2DPlayerController.HandleJump` has a `groundCheck == null` guard that is not modelled, because `Start` always creates a ground check.
- `Simple2DPlayerController.UpdateAnimations` only feeds the animator and is not modelled.
- Float rounding and frame-rate dependence are not modelled: every float is an exact `real`.
- Lerp's clamp of t to [0, 1] is modelled, as Unity documents it for `Vector3.Lerp`.
- The inspector's default values are not modelled: every setting is a parameter, and a lemma that needs a sign (downward gravity, multipliers above 1, dt > 0) states it as a precondition. The exception is the fundamentals GameManager's serialized score and lives, which start at their field initialisers 0 and 3 (`Scoring.GameManager.constructor`, and `Scoring.GameOverFromThirdLoss` counts from that 3); an Inspector override of them is not modelled.
- The other scripts of the course are not part of this model. Each only wires engine services together: the input-system player controller, camera shake (coroutines and randomness), the bouncing ball, UI text, sprite control, debug tools and scene loading.
