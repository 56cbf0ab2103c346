# Player locomotion controller: a verified model

This project models the per-frame state machine of the player-controlled
character's locomotion controller (`PlayerController` in
`Assets/PlayerTigerController.cs`). Each `Update` runs six steps in a fixed
order: input sampling, movement, gravity, jump, effects and the animator push.
Four latches carry over between frames: `isGrounded`,
`wasGroundedLastFrame`, `wasInAir` and `isRunningEffectPlaying`. The vertical
velocity carries over too.

The model has four modules:

- `Locomotion` (`locomotion.dfy`) holds the data model and the steps as pure
  functions. `Config` holds the tuning values. `Wiring` records which optional
  collaborators are present (run, land and jump effects, animator).
  `FrameInput` is everything the engine supplies for one frame: the two axes,
  the run key, the jump key's down edge, the controller's grounded flag and
  the frame time. `ControllerState` holds the private fields. `EngineCall`
  covers the calls into the engine: `Move`, particle `Play`/`Stop` and
  `SetFloat`. `Frame` composes the steps in the source's order.
- `FrameProperties` (`frame_properties.dfy`) proves properties of one frame for
  all inputs. Examples: which step issues which call, the landing and run-dust
  conditions, the jump override, and the grounded velocity floor.
- `Episodes` (`episodes.dfy`) proves properties over sequences of frames
  (`Run`). The run dust is edge-triggered: it starts once per rising edge of
  its condition, stops once per falling edge, and starts and stops strictly
  alternate. The landing effect fires once per airborne-to-grounded step,
  hence exactly once per airborne episode. While airborne, the vertical
  velocity integrates gravity.
- `Controller` (`controller.dfy`) holds the class `PlayerController`. It has
  the source's fields and one method per handler, and each method body
  follows the source statement by statement. Each method is proved to
  produce the state and calls given by the matching `Locomotion` function.
  `Valid()` is the invariant that `Update` keeps. First, `wasInAir` equals
  "the last frame was airborne". Second, without a run effect the playing
  flag stays off. Third, the run-dust starts and stops in the call log
  alternate and end in the playing flag.

Modelling choices:

- Velocity and frame time are `real`. Only the vertical velocity is written;
  its other components are never assigned.
- `sqrt(jumpHeight * -2 * gravity)` is the `Config` field `jumpVelocity`.
  `ValidConfig` says it is the non-negative root of that product.
- Magnitudes are compared on squares, since `|v| > 0.1` exactly when
  `x² + y² > 0.01`. The effects and the animator test the raw input magnitude
  against 0.1 (`AboveDeadzone`). Movement tests the *normalized* direction
  against 0.1. The engine's normalization yields a unit vector, or the zero
  vector at magnitudes of 1e-5 or less, so that test holds exactly when the
  input exceeds 1e-5 (`HasDirection`).
- The two thresholds differ. Movement normalizes the input before comparing
  its magnitude with 0.1 (Assets/PlayerTigerController.cs:67,71). The run
  dust and the animator compare the raw magnitude with 0.1 (:135,161,165).
  So input below the deadzone but above 1e-5 moves the character at walking
  or running speed, chosen by the run key, while the animator reports idle
  and the run dust stays off. `FrameProperties.SubDeadzoneInputMoves` states
  this for every such input, and `FrameProperties.SubDeadzoneInputExists`
  shows one.
- A source comment says the run dust plays only on the ground, but the code's
  condition does not test `isGrounded`. The model follows the code;
  `FrameProperties.RunDustStartsInTheAir` states the behaviour.

## Model

| member | source | states |
|---|---|---|
| Locomotion.SampleInput | Assets/PlayerTigerController.cs:45-49 | The frame's axes and run key are stored; no other field changes. |
| Locomotion.MoveCall | Assets/PlayerTigerController.cs:65-84 | The move delta's vertical part is the current vertical velocity times dt. Its horizontal part (the speed along the movement direction times dt) is zero when the input has no direction, else run or walk speed times dt, chosen by the run key. |
| Locomotion.Gravity | Assets/PlayerTigerController.cs:87-103 | Grounded and falling: velocity becomes exactly -2 + gravity·dt. Otherwise: old velocity + gravity·dt. Not grounded sets `wasInAir`; grounded leaves it. Only velocity, `isGrounded` and `wasInAir` change. |
| Locomotion.Jump | Assets/PlayerTigerController.cs:105-114 | Jump key down while grounded: velocity becomes the jump velocity whatever it was. Otherwise the state is unchanged. |
| Locomotion.JumpCalls | Assets/PlayerTigerController.cs:107-113 | The jump effect plays exactly when a jump fires and the effect is wired, at most once; no other call is made. |
| Locomotion.RunEffect | Assets/PlayerTigerController.cs:132-150 | With a run effect, the playing flag becomes the run condition (input above deadzone and run key held). `PlayRun` is issued only on a rising edge, `StopRun` only on a falling edge, at most one call, and no other kind of call. Without a run effect nothing changes. |
| Locomotion.Effects | Assets/PlayerTigerController.cs:116-130 | Afterwards `wasGroundedLastFrame == isGrounded`. `wasInAir` is cleared exactly when the landing condition holds and is otherwise kept. `PlayLand` is issued iff the landing condition holds and the effect is wired. Only run-dust and landing calls are issued. |
| Locomotion.AnimatorState | Assets/PlayerTigerController.cs:158-161 | "State" is 0 or 1, and 1 iff the input magnitude exceeds 0.1. |
| Locomotion.AnimatorVert | Assets/PlayerTigerController.cs:163-168 | "Vert" is 0, 0.5 or 1: 0 iff idle, 0.5 iff walking, 1 iff running. |
| Locomotion.AnimatorCalls | Assets/PlayerTigerController.cs:153-173 | Without an animator nothing is written. With one, "State" is written with `AnimatorState` of the stored input (0 idle, 1 moving), then "Vert" with `AnimatorVert` of the stored input and run key (0, 0.5 or 1), damping 0.1 and the frame time. |
| Locomotion.Frame | Assets/PlayerTigerController.cs:35-43 | After a frame the controller holds this frame's axes, run key and grounded flag, and remembers that grounded flag as the last frame's: input is sampled first and the grounded flag is stored by the effects step. The order of the calls is stated by `MoveUsesPreviousVelocity` (the move comes first) and `FrameAnimator` (the animator comes last). |
| Locomotion.DeadzoneImpliesDirection | Assets/PlayerTigerController.cs:67-71 | Input above the effects' deadzone always passes the movement test. |
| FrameProperties.InitialConsistent | Assets/PlayerTigerController.cs:24-27 | The attach-time values (`wasGroundedLastFrame = true`, `wasInAir = false`, effect off) satisfy the reachable-state invariant. |
| FrameProperties.FramePreservesConsistent | Assets/PlayerTigerController.cs:97-129 | Every frame keeps the invariant. After a frame, `wasInAir` is set exactly when the frame was airborne, and `wasGroundedLastFrame == isGrounded ==` the frame's grounded flag. |
| FrameProperties.FrameLandsOnTouchdown | Assets/PlayerTigerController.cs:121-129 | From a reachable state, the landing effect plays on a frame once iff the previous frame was airborne and this one is grounded, and never otherwise. |
| FrameProperties.FrameRunEdges | Assets/PlayerTigerController.cs:135-149 | With a run effect, one frame issues one `PlayRun` iff the condition rose and one `StopRun` iff it fell. The playing flag afterwards equals the condition. |
| FrameProperties.FrameWithoutRunEffect | Assets/PlayerTigerController.cs:137-149 | Without a run effect a frame issues no run-dust call and leaves the playing flag unchanged. |
| FrameProperties.RunDustStartsInTheAir | Assets/PlayerTigerController.cs:134-143 | The run-dust condition ignores grounding: running input starts the dust on an airborne frame. |
| FrameProperties.MoveUsesPreviousVelocity | Assets/PlayerTigerController.cs:65-84 | The first call of a frame is the `Move` of the state with this frame's input sampled, for every configuration. Because movement runs before gravity and jump, its vertical part is the previous frame's velocity times dt. With positive speeds and frame time, its horizontal part is zero iff the input has no direction. |
| FrameProperties.FrameVelocity | Assets/PlayerTigerController.cs:87-114 | After a frame, velocity is the jump velocity if the jump key went down while grounded, whatever it was before. Otherwise it is the snapped-or-kept velocity plus gravity·dt. The jump effect plays iff a jump fired and the effect is wired. |
| FrameProperties.JumpLaunchesUpward | Assets/PlayerTigerController.cs:109 | With downward gravity and a positive jump height, the jump velocity is positive. |
| FrameProperties.GroundedVelocityFloor | Assets/PlayerTigerController.cs:91-109 | With downward (or zero) gravity, a non-negative frame time and the jump velocity the non-negative root of jumpHeight·-2·gravity: on a grounded frame the velocity never ends below -2 + gravity·dt, so standing does not accumulate fall speed. |
| FrameProperties.GroundedRestIsFixedPoint | Assets/PlayerTigerController.cs:91-102 | With downward gravity and a positive frame time: grounded with no jump, velocity -2 + gravity·dt is kept from frame to frame. |
| FrameProperties.AirborneFrameIntegratesGravity | Assets/PlayerTigerController.cs:97-107 | An airborne frame adds gravity·dt to the velocity, sets `wasInAir` and ignores the jump key. |
| FrameProperties.AnimatorAgreesWithRunDust | Assets/PlayerTigerController.cs:135-167 | With both wired, the "Vert" target is 1 exactly when the run dust is playing after the frame. |
| FrameProperties.FrameAnimator | Assets/PlayerTigerController.cs:153-172 | With an animator, a frame ends by writing "State" = 1 iff above the deadzone and "Vert" = 0 idle, 0.5 walking, 1 running, from this frame's input. |
| FrameProperties.FrameWithoutAnimator | Assets/PlayerTigerController.cs:155 | Without an animator a frame writes no animator parameter. |
| FrameProperties.SubDeadzoneInputMoves | Assets/PlayerTigerController.cs:67-77 | For every input that passes the movement test but not the deadzone, the move's horizontal part (the speed along the movement direction times dt) is the run-key-chosen speed times dt, while "State" and "Vert" are both 0 and the run dust stays off. |
| FrameProperties.SubDeadzoneInputExists | Assets/PlayerTigerController.cs:71 | Input (0.05, 0) passes the movement test but not the deadzone. |
| Episodes.RunCallsAlternate | Assets/PlayerTigerController.cs:139-148 | Over any frame sequence the run dust is started and stopped strictly in turn, never twice in a row, ending in the final playing flag. |
| Episodes.RunEffectEdgeTriggered | Assets/PlayerTigerController.cs:135-149 | With a run effect, over any frame sequence: the count of `PlayRun` equals the rising edges of the per-frame run condition, the count of `StopRun` equals the falling edges, and the final flag is the last condition. |
| Episodes.NoRunEffectNoRunCalls | Assets/PlayerTigerController.cs:137 | Without a run effect no frame sequence starts or stops the run dust or changes the playing flag. |
| Episodes.SustainedRunStartsOnce | Assets/PlayerTigerController.cs:139-143 | With a run effect, from the dust off, running over one or more frames starts it exactly once and never stops it. |
| Episodes.SustainedIdleStopsAtMostOnce | Assets/PlayerTigerController.cs:144-148 | With a run effect, not running never starts the dust; over one or more frames it stops it once if it was playing, else never. |
| Episodes.RunStartsAndStopsBalance | Assets/PlayerTigerController.cs:139-148 | For every wiring, starts minus stops equals the final playing flag minus the initial one. |
| Episodes.LandingCountsTouchdowns | Assets/PlayerTigerController.cs:121-129 | From a reachable state, the landing effect plays once per airborne-to-grounded step of the grounded flags (zero times if unwired), and the invariant is kept. |
| Episodes.AirborneEpisodeLandsOnce | Assets/PlayerTigerController.cs:97-129 | Airborne for N ≥ 1 frames, then grounded: the landing effect plays exactly once, whatever N. |
| Episodes.NeverAirborneNeverLands | Assets/PlayerTigerController.cs:121-129 | From the attach-time values, a character that never leaves the ground never plays the landing effect. |
| Episodes.AirborneIntegratesGravity | Assets/PlayerTigerController.cs:97-102 | Over airborne frames the velocity is the initial velocity + gravity × total time, and no jump fires. |
| Controller.PlayerController.constructor | Assets/PlayerTigerController.cs:20-28 | Fields start at their declared values, no calls yet, invariant holds. |
| Controller.PlayerController.GetInput | Assets/PlayerTigerController.cs:45-49 | Stores the axes and run key as `SampleInput`. |
| Controller.PlayerController.HandleMovement | Assets/PlayerTigerController.cs:65-84 | Appends the `MoveCall` delta and changes no field. |
| Controller.PlayerController.HandleGravity | Assets/PlayerTigerController.cs:87-103 | New fields are `Gravity` of the old ones: the snap to -2 + gravity·dt, else integration, and the in-air latch. |
| Controller.PlayerController.HandleJump | Assets/PlayerTigerController.cs:105-114 | New fields are `Jump` of the old ones: velocity is the jump velocity when the key went down while grounded, else unchanged. The jump effect call is appended. |
| Controller.PlayerController.HandleRunEffect | Assets/PlayerTigerController.cs:132-150 | New fields and calls are `RunEffect`'s. With a run effect the flag equals the run condition; without one nothing changes. |
| Controller.PlayerController.HandleEffects | Assets/PlayerTigerController.cs:116-130 | New fields and calls are `Effects`'s, and `wasGroundedLastFrame == isGrounded`. |
| Controller.PlayerController.UpdateAnimator | Assets/PlayerTigerController.cs:153-173 | Appends `AnimatorCalls` and changes no field. |
| Controller.PlayerController.Update | Assets/PlayerTigerController.cs:35-43 | One frame equals `Frame` and keeps `Valid()`. Afterwards `wasGroundedLastFrame == isGrounded ==` the grounded input and `wasInAir ==` not grounded. With a run effect, the playing flag equals this frame's run condition. |
| Controller.FrameKeepsValid | Assets/PlayerTigerController.cs:116-150 | One frame keeps the latch invariant and extends an alternating run-dust log to an alternating one. |

## Left out

- Rotation and direction: `RotateTowardsMoveDirection` and `GetMoveDirection` (Assets/PlayerTigerController.cs:51-63) compute with `Atan2`, `Euler`, `Slerp` and normalization on floats, all inside the engine's math library. Only the speed along the movement direction times dt, and whether it is zero, are modelled.
- Locomotion.MoveCall: gives the speed along the movement direction times dt but not the direction itself. Camera-relative steering is engine math.
- `Mathf.Sqrt` (Assets/PlayerTigerController.cs:109) is not computed. `jumpVelocity` is a configuration value, tied to it by `ValidConfig`.
- Floating-point rounding is not modelled. All arithmetic is exact on `real`.
- Engine collaborators are not modelled beyond the calls made to them: `CharacterController.Move`/`isGrounded`, `ParticleSystem.Play/Stop` and `Animator.SetFloat` with its damping. Input polling (`Input.GetAxis`, `GetKey`, `GetKeyDown`) becomes the per-frame `FrameInput`, and the grounded flag is an input too.
- The fatal null dereference when the camera transform or character controller is missing is not modelled. Both are treated as present.
- `Start` (Assets/PlayerTigerController.cs:29-33) only looks up components; animator presence is `Wiring.animator`.
- Assets/Movement.cs is not part of this model: it writes a normalized, scaled input vector into an engine rigid body and keeps no state of its own.
- Assets/PLayerController.cs is not part of this model: it only calls `Quaternion.LookRotation`/`Slerp` on float vectors.
- The `rotationSpeed` field is not modelled, because it only feeds the rotation interpolation.
