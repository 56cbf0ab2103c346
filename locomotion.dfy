/** Per-frame logic of the player locomotion controller, as pure functions.

    The controller's `Update` runs six steps in a fixed order: input sampling,
    movement, gravity, jump, effects (run dust and landing) and the animator
    push. Each step is a function here from the controller state (and the
    frame's engine-supplied inputs) to the new state and the engine calls it
    issues; `Frame` composes them in the source's order.
 */
module Locomotion {

  /** A two-axis input sample (horizontal, vertical), as polled from the engine. */
  datatype Axis = Axis(x: real, y: real)

  /** Tuning values of the controller. `jumpVelocity` stands for
      `sqrt(jumpHeight * -2 * gravity)`; `ValidConfig` says which value that is. */
  datatype Config = Config(walkSpeed: real, runSpeed: real, gravity: real,
                           jumpHeight: real, jumpVelocity: real)

  /** Which optional collaborators are wired: the run, land and jump particle
      effects and the animator. A missing one is skipped by its null check. */
  datatype Wiring = Wiring(runEffect: bool, landEffect: bool, jumpEffect: bool, animator: bool)

  /** What the engine supplies for one frame: the two input axes, the run key
      (held), the jump key (went down this frame), the controller's grounded
      flag as read after this frame's move, and the frame time. */
  datatype FrameInput = FrameInput(axis: Axis, runKey: bool, jumpKeyDown: bool,
                                   grounded: bool, dt: real)

  /** The controller's private fields that the frame steps read and write.
      Only the vertical component of the velocity is ever written. */
  datatype ControllerState = ControllerState(
    velocityY: real,
    inputAxis: Axis,
    isRunning: bool,
    isGrounded: bool,
    wasGroundedLastFrame: bool,
    wasInAir: bool,
    isRunningEffectPlaying: bool)

  /** Calls the controller makes into the engine. `Move` carries the speed
      along the movement direction times the frame time, and the vertical
      component of the displacement; `SetVert` carries
      the target value, the damping time and the frame time. */
  datatype EngineCall =
    | Move(horizontal: real, vertical: real)
    | PlayJump
    | PlayRun
    | StopRun
    | PlayLand
    | SetState(state: real)
    | SetVert(target: real, dampTime: real, dt: real)

  /** A state together with the engine calls made while reaching it. */
  datatype Stepped = Stepped(state: ControllerState, calls: seq<EngineCall>)

  /** Threshold on the raw input magnitude used by the effects and the animator. */
  const Deadzone: real := 0.1
  /** Magnitude at or below which the engine's normalization yields the zero vector. */
  const NormalizeEpsilon: real := 0.00001
  /** Vertical velocity a grounded, falling character is snapped to. */
  const GroundSnap: real := -2.0
  /** Damping time passed with the "Vert" animator parameter. */
  const VertDampTime: real := 0.1

  /** Field values when the behaviour is attached. */
  const Initial: ControllerState :=
    ControllerState(0.0, Axis(0.0, 0.0), false, false, true, false, false)

  /** The jump velocity is the non-negative root of `jumpHeight * -2 * gravity`. */
  ghost predicate ValidConfig(c: Config)
  {
    c.jumpVelocity >= 0.0 && c.jumpVelocity * c.jumpVelocity == c.jumpHeight * -2.0 * c.gravity
  }

  function SqrMagnitude(a: Axis): real
  {
    a.x * a.x + a.y * a.y
  }

  /** `inputAxis.magnitude > 0.1`, compared on squares (a magnitude is never negative). */
  predicate AboveDeadzone(a: Axis)
  {
    SqrMagnitude(a) > Deadzone * Deadzone
  }

  /** `new Vector3(x, 0, y).normalized.magnitude >= 0.1`: normalization gives a
      unit vector, or the zero vector when the magnitude is at most
      `NormalizeEpsilon`, so the test holds exactly when the input is not negligible. */
  predicate HasDirection(a: Axis)
  {
    SqrMagnitude(a) > NormalizeEpsilon * NormalizeEpsilon
  }

  /** The movement threshold is far below the effects' deadzone. */
  lemma DeadzoneImpliesDirection(a: Axis)
    ensures AboveDeadzone(a) ==> HasDirection(a)
  {
  }

  // ---------------------------------------------------------------- input

  /** GetInput: store the frame's axes and run key. */
  function SampleInput(s: ControllerState, axis: Axis, runKey: bool): (r: ControllerState)
    ensures r.inputAxis == axis && r.isRunning == runKey
    ensures r.(inputAxis := s.inputAxis, isRunning := s.isRunning) == s
  {
    s.(inputAxis := axis, isRunning := runKey)
  }

  // ------------------------------------------------------------- movement

  /** The speed chosen by the run key. */
  function MoveSpeed(c: Config, running: bool): real
  {
    if running then c.runSpeed else c.walkSpeed
  }

  /** HandleMovement: the delta passed to the character controller's `Move`.
      The horizontal part is the chosen speed along the movement direction
      (a unit vector), or zero when the input has no direction; the vertical
      part is the current vertical velocity. Both are scaled by the frame time. */
  function MoveCall(c: Config, s: ControllerState, dt: real): (m: EngineCall)
    ensures m.Move?
    ensures m.vertical == s.velocityY * dt
    ensures !HasDirection(s.inputAxis) ==> m.horizontal == 0.0
    ensures HasDirection(s.inputAxis) && s.isRunning ==> m.horizontal == c.runSpeed * dt
    ensures HasDirection(s.inputAxis) && !s.isRunning ==> m.horizontal == c.walkSpeed * dt
  {
    var horizontal := if HasDirection(s.inputAxis) then MoveSpeed(c, s.isRunning) else 0.0;
    Move(horizontal * dt, s.velocityY * dt)
  }

  // -------------------------------------------------------------- gravity

  /** HandleGravity: read the grounded flag, snap a grounded falling velocity,
      latch "has been in the air", then integrate gravity over the frame. */
  function Gravity(c: Config, s: ControllerState, grounded: bool, dt: real): (r: ControllerState)
    ensures r.isGrounded == grounded
    ensures grounded && s.velocityY < 0.0 ==> r.velocityY == GroundSnap + c.gravity * dt
    ensures !(grounded && s.velocityY < 0.0) ==> r.velocityY == s.velocityY + c.gravity * dt
    ensures !grounded ==> r.wasInAir
    ensures grounded ==> r.wasInAir == s.wasInAir
    ensures r.(velocityY := s.velocityY, isGrounded := s.isGrounded, wasInAir := s.wasInAir) == s
  {
    var snapped := if grounded && s.velocityY < 0.0 then GroundSnap else s.velocityY;
    s.(isGrounded := grounded,
       wasInAir := if !grounded then true else s.wasInAir,
       velocityY := snapped + c.gravity * dt)
  }

  // ----------------------------------------------------------------- jump

  /** Whether HandleJump fires: the jump key went down while grounded. */
  predicate Jumps(s: ControllerState, jumpKeyDown: bool)
  {
    jumpKeyDown && s.isGrounded
  }

  /** HandleJump: a jump overrides the vertical velocity with the jump velocity. */
  function Jump(c: Config, s: ControllerState, jumpKeyDown: bool): (r: ControllerState)
    ensures Jumps(s, jumpKeyDown) ==> r == s.(velocityY := c.jumpVelocity)
    ensures !Jumps(s, jumpKeyDown) ==> r == s
  {
    if Jumps(s, jumpKeyDown) then s.(velocityY := c.jumpVelocity) else s
  }

  /** The engine calls HandleJump makes: the jump effect plays when a jump fires. */
  function JumpCalls(w: Wiring, s: ControllerState, jumpKeyDown: bool): (calls: seq<EngineCall>)
    ensures PlayJump in calls <==> w.jumpEffect && Jumps(s, jumpKeyDown)
    ensures |calls| <= 1
    ensures forall e :: e in calls ==> e == PlayJump
  {
    if Jumps(s, jumpKeyDown) && w.jumpEffect then [PlayJump] else []
  }

  // -------------------------------------------------------------- effects

  /** The run-dust condition: input above the deadzone with the run key held. */
  predicate RunMoving(s: ControllerState)
  {
    AboveDeadzone(s.inputAxis) && s.isRunning
  }

  /** HandleRunEffect: start the run dust on a rising edge of `RunMoving`,
      stop it on a falling edge, and keep the playing flag in step. */
  function RunEffect(w: Wiring, s: ControllerState): (r: Stepped)
    ensures w.runEffect ==> r.state == s.(isRunningEffectPlaying := RunMoving(s))
    ensures !w.runEffect ==> r.state == s && r.calls == []
    ensures PlayRun in r.calls <==> w.runEffect && RunMoving(s) && !s.isRunningEffectPlaying
    ensures StopRun in r.calls <==> w.runEffect && !RunMoving(s) && s.isRunningEffectPlaying
    ensures |r.calls| <= 1
    ensures forall e :: e in r.calls ==> e == PlayRun || e == StopRun
  {
    if !w.runEffect then
      Stepped(s, [])
    else if RunMoving(s) && !s.isRunningEffectPlaying then
      Stepped(s.(isRunningEffectPlaying := true), [PlayRun])
    else if !RunMoving(s) && s.isRunningEffectPlaying then
      Stepped(s.(isRunningEffectPlaying := false), [StopRun])
    else
      Stepped(s, [])
  }

  /** The landing condition: airborne last frame, grounded now, and the
      in-air latch is set. */
  predicate Lands(s: ControllerState)
  {
    !s.wasGroundedLastFrame && s.isGrounded && s.wasInAir
  }

  /** HandleEffects: the run effect, then the landing effect (which clears the
      in-air latch), then remember this frame's grounded flag. */
  function Effects(w: Wiring, s: ControllerState): (r: Stepped)
    ensures r.state.wasGroundedLastFrame == s.isGrounded
    ensures r.state.wasInAir == (s.wasInAir && !Lands(s))
    ensures PlayLand in r.calls <==> w.landEffect && Lands(s)
    ensures forall e :: e in r.calls ==> e == PlayRun || e == StopRun || e == PlayLand
    ensures w.runEffect ==> r.state.isRunningEffectPlaying == RunMoving(s)
    ensures !w.runEffect ==> r.state.isRunningEffectPlaying == s.isRunningEffectPlaying
    ensures r.state.(wasGroundedLastFrame := s.wasGroundedLastFrame, wasInAir := s.wasInAir,
                     isRunningEffectPlaying := s.isRunningEffectPlaying) == s
  {
    var run := RunEffect(w, s);
    var t := run.state;
    var landed := Lands(t);
    Stepped(t.(wasInAir := if landed then false else t.wasInAir,
               wasGroundedLastFrame := t.isGrounded),
            run.calls + (if landed && w.landEffect then [PlayLand] else []))
  }

  // ------------------------------------------------------------- animator

  /** The "State" parameter: 1 when moving, 0 when idle. */
  function AnimatorState(a: Axis): (v: real)
    ensures v == 0.0 || v == 1.0
    ensures v == 1.0 <==> AboveDeadzone(a)
  {
    if AboveDeadzone(a) then 1.0 else 0.0
  }

  /** The "Vert" parameter: 0 when idle, 0.5 when walking, 1 when running. */
  function AnimatorVert(a: Axis, running: bool): (v: real)
    ensures v == 0.0 || v == 0.5 || v == 1.0
    ensures v == 0.0 <==> !AboveDeadzone(a)
    ensures v == 0.5 <==> AboveDeadzone(a) && !running
    ensures v == 1.0 <==> AboveDeadzone(a) && running
  {
    if AboveDeadzone(a) then (if running then 1.0 else 0.5) else 0.0
  }

  /** UpdateAnimator: push both parameters, or nothing when no animator is wired. */
  function AnimatorCalls(w: Wiring, s: ControllerState, dt: real): (calls: seq<EngineCall>)
    ensures !w.animator ==> calls == []
    ensures w.animator ==> |calls| == 2 && calls[0].SetState? && calls[1].SetVert?
    ensures w.animator ==> calls[0] == SetState(AnimatorState(s.inputAxis))
    ensures w.animator ==> calls[1] == SetVert(AnimatorVert(s.inputAxis, s.isRunning), VertDampTime, dt)
  {
    if !w.animator then []
    else [SetState(AnimatorState(s.inputAxis)),
          SetVert(AnimatorVert(s.inputAxis, s.isRunning), VertDampTime, dt)]
  }

  // ---------------------------------------------------------------- frame

  /** One `Update`: GetInput, HandleMovement, HandleGravity, HandleJump,
      HandleEffects, UpdateAnimator, in that order. */
  function Frame(c: Config, w: Wiring, s: ControllerState, f: FrameInput): (r: Stepped)
    ensures r.state.inputAxis == f.axis && r.state.isRunning == f.runKey && r.state.isGrounded == f.grounded
    ensures r.state.wasGroundedLastFrame == f.grounded
  {
    var s1 := SampleInput(s, f.axis, f.runKey);
    var move := MoveCall(c, s1, f.dt);
    var s2 := Gravity(c, s1, f.grounded, f.dt);
    var s3 := Jump(c, s2, f.jumpKeyDown);
    var e := Effects(w, s3);
    Stepped(e.state, [move] + JumpCalls(w, s2, f.jumpKeyDown) + e.calls + AnimatorCalls(w, e.state, f.dt))
  }

  /** The run-dust condition as a function of the frame's input alone. */
  predicate RunMovingInput(f: FrameInput)
  {
    AboveDeadzone(f.axis) && f.runKey
  }

  /** The run condition of the frame's input is the run-dust condition of the
      state once that input is sampled. */
  lemma RunMovingSampled(s: ControllerState, f: FrameInput)
    ensures RunMoving(SampleInput(s, f.axis, f.runKey)) == RunMovingInput(f)
  {
  }

  /** The invariant every reachable state keeps: the in-air latch is set exactly
      when the last frame was airborne, and without a run effect the playing
      flag stays off. */
  ghost predicate Consistent(w: Wiring, s: ControllerState)
  {
    (s.wasInAir <==> !s.wasGroundedLastFrame) && (!w.runEffect ==> !s.isRunningEffectPlaying)
  }
}
