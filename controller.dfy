/** The player locomotion controller as an object whose handlers update its
    fields in place, each proved against the per-frame functions of
    `Locomotion`. Engine calls are appended to `calls`. */
module Controller {
  import opened Locomotion
  import opened FrameProperties
  import opened Episodes

  class PlayerController {
    const config: Config
    const wiring: Wiring

    /** Vertical component of the velocity accumulator. */
    var velocityY: real
    var inputAxis: Axis
    var isGrounded: bool
    var wasGroundedLastFrame: bool
    var wasInAir: bool
    var isRunning: bool
    var isRunningEffectPlaying: bool
    /** Every engine call made so far, in order. */
    var calls: seq<EngineCall>

    /** The fields the frame steps read and write, as one value. */
    function State(): ControllerState
      reads this
    {
      ControllerState(velocityY, inputAxis, isRunning, isGrounded,
                      wasGroundedLastFrame, wasInAir, isRunningEffectPlaying)
    }

    /** The in-air latch mirrors "last frame airborne", and the run dust has
        been started and stopped strictly in turn, ending in the playing flag. */
    ghost predicate Valid()
      reads this
    {
      Consistent(wiring, State()) && Alternates(false, RunCallsOf(calls), isRunningEffectPlaying)
    }

    constructor (config: Config, wiring: Wiring)
      ensures this.config == config && this.wiring == wiring
      ensures State() == Initial && calls == []
      ensures Valid()
    {
      this.config := config;
      this.wiring := wiring;
      velocityY := 0.0;
      inputAxis := Axis(0.0, 0.0);
      isGrounded := false;
      wasGroundedLastFrame := true;
      wasInAir := false;
      isRunning := false;
      isRunningEffectPlaying := false;
      calls := [];
    }

    /** GetInput. */
    method GetInput(axis: Axis, runKey: bool)
      modifies this
      ensures State() == SampleInput(old(State()), axis, runKey)
      ensures calls == old(calls)
    {
      inputAxis := axis;
      isRunning := runKey;
    }

    /** HandleMovement: move by the chosen speed along the input direction (or
        not at all horizontally) and by the current vertical velocity. */
    method HandleMovement(dt: real)
      modifies this
      ensures State() == old(State())
      ensures calls == old(calls) + [MoveCall(config, old(State()), dt)]
    {
      var horizontal := 0.0;
      if HasDirection(inputAxis) {
        horizontal := if isRunning then config.runSpeed else config.walkSpeed;
      }
      assert MoveCall(config, State(), dt) == Move(horizontal * dt, velocityY * dt);
      calls := calls + [Move(horizontal * dt, velocityY * dt)];
    }

    /** HandleGravity. */
    method HandleGravity(grounded: bool, dt: real)
      modifies this
      ensures State() == Gravity(config, old(State()), grounded, dt)
      ensures isGrounded == grounded
      ensures grounded && old(velocityY) < 0.0 ==> velocityY == GroundSnap + config.gravity * dt
      ensures !(grounded && old(velocityY) < 0.0) ==> velocityY == old(velocityY) + config.gravity * dt
      ensures !grounded ==> wasInAir
      ensures calls == old(calls)
    {
      isGrounded := grounded;
      if isGrounded && velocityY < 0.0 {
        velocityY := GroundSnap;
      }
      if !isGrounded {
        wasInAir := true;
      }
      velocityY := velocityY + config.gravity * dt;
    }

    /** HandleJump. */
    method HandleJump(jumpKeyDown: bool)
      modifies this
      ensures State() == Jump(config, old(State()), jumpKeyDown)
      ensures jumpKeyDown && isGrounded ==> velocityY == config.jumpVelocity
      ensures !(jumpKeyDown && isGrounded) ==> velocityY == old(velocityY)
      ensures calls == old(calls) + JumpCalls(wiring, old(State()), jumpKeyDown)
    {
      if jumpKeyDown && isGrounded {
        velocityY := config.jumpVelocity;
        if wiring.jumpEffect {
          calls := calls + [PlayJump];
        }
      }
    }

    /** HandleRunEffect. */
    method HandleRunEffect()
      modifies this
      ensures State() == RunEffect(wiring, old(State())).state
      ensures calls == old(calls) + RunEffect(wiring, old(State())).calls
      ensures wiring.runEffect ==> isRunningEffectPlaying == RunMoving(old(State()))
      ensures !wiring.runEffect ==> State() == old(State()) && calls == old(calls)
    {
      var isRunMoving := AboveDeadzone(inputAxis) && isRunning;
      if wiring.runEffect {
        if isRunMoving && !isRunningEffectPlaying {
          calls := calls + [PlayRun];
          isRunningEffectPlaying := true;
        } else if !isRunMoving && isRunningEffectPlaying {
          calls := calls + [StopRun];
          isRunningEffectPlaying := false;
        }
      }
    }

    /** HandleEffects. */
    method HandleEffects()
      modifies this
      ensures State() == Effects(wiring, old(State())).state
      ensures calls == old(calls) + Effects(wiring, old(State())).calls
      ensures wasGroundedLastFrame == isGrounded
    {
      HandleRunEffect();
      if !wasGroundedLastFrame && isGrounded && wasInAir {
        if wiring.landEffect {
          calls := calls + [PlayLand];
        }
        wasInAir := false;
      }
      wasGroundedLastFrame := isGrounded;
    }

    /** UpdateAnimator. */
    method UpdateAnimator(dt: real)
      modifies this
      ensures State() == old(State())
      ensures calls == old(calls) + AnimatorCalls(wiring, old(State()), dt)
    {
      if !wiring.animator {
        return;
      }
      var state := if AboveDeadzone(inputAxis) then 1.0 else 0.0;
      var vertValue := 0.0;
      if AboveDeadzone(inputAxis) {
        vertValue := if isRunning then 1.0 else 0.5;
      }
      calls := calls + [SetState(state), SetVert(vertValue, VertDampTime, dt)];
    }

    /** Update: one frame, the six steps in the source's order. */
    method Update(f: FrameInput)
      requires Valid()
      modifies this
      ensures Valid()
      ensures State() == Frame(config, wiring, old(State()), f).state
      ensures calls == old(calls) + Frame(config, wiring, old(State()), f).calls
      ensures wasGroundedLastFrame == isGrounded == f.grounded && wasInAir == !f.grounded
      ensures wiring.runEffect ==> isRunningEffectPlaying == RunMovingInput(f)
    {
      ghost var before, log := State(), calls;
      GetInput(f.axis, f.runKey);
      ghost var s1 := State();
      HandleMovement(f.dt);
      ghost var log1 := calls;
      HandleGravity(f.grounded, f.dt);
      ghost var s2 := State();
      HandleJump(f.jumpKeyDown);
      ghost var log2, s3 := calls, State();
      HandleEffects();
      ghost var log3, s4 := calls, State();
      UpdateAnimator(f.dt);
      UpdateSteps(config, wiring, before, f, log, s1, log1, s2, s3, log2, s4, log3, calls);
      RunFlagAfterFrame(config, wiring, before, f);
    }
  }

  /** The six handlers run in order make exactly one `Frame`: its state and its
      calls, appended to the log; and the frame keeps the controller's invariant. */
  lemma UpdateSteps(c: Config, w: Wiring, s: ControllerState, f: FrameInput, log: seq<EngineCall>,
                    s1: ControllerState, log1: seq<EngineCall>, s2: ControllerState,
                    s3: ControllerState, log2: seq<EngineCall>,
                    s4: ControllerState, log3: seq<EngineCall>, log4: seq<EngineCall>)
    requires Consistent(w, s) && Alternates(false, RunCallsOf(log), s.isRunningEffectPlaying)
    requires s1 == SampleInput(s, f.axis, f.runKey) && log1 == log + [MoveCall(c, s1, f.dt)]
    requires s2 == Gravity(c, s1, f.grounded, f.dt)
    requires s3 == Jump(c, s2, f.jumpKeyDown) && log2 == log1 + JumpCalls(w, s2, f.jumpKeyDown)
    requires s4 == Effects(w, s3).state && log3 == log2 + Effects(w, s3).calls
    requires log4 == log3 + AnimatorCalls(w, s4, f.dt)
    ensures s4 == Frame(c, w, s, f).state && log4 == log + Frame(c, w, s, f).calls
    ensures Consistent(w, s4) && Alternates(false, RunCallsOf(log4), s4.isRunningEffectPlaying)
    ensures s4.wasGroundedLastFrame == s4.isGrounded == f.grounded && s4.wasInAir == !f.grounded
  {
    FrameComposition(c, w, s, f, s1, s2, s3, s4);
    var r := Frame(c, w, s, f);
    AppendFour(log, [MoveCall(c, s1, f.dt)], JumpCalls(w, s2, f.jumpKeyDown), Effects(w, s3).calls,
               AnimatorCalls(w, s4, f.dt));
    FrameKeepsValid(c, w, s, f, log);
    FramePreservesConsistent(c, w, s, f);
  }

  lemma AppendFour<T>(log: seq<T>, a: seq<T>, b: seq<T>, c: seq<T>, d: seq<T>)
    ensures log + a + b + c + d == log + (a + b + c + d)
  {
  }

  /** One frame keeps the controller's invariant, whatever calls came before. */
  lemma FrameKeepsValid(c: Config, w: Wiring, s: ControllerState, f: FrameInput, log: seq<EngineCall>)
    requires Consistent(w, s) && Alternates(false, RunCallsOf(log), s.isRunningEffectPlaying)
    ensures var r := Frame(c, w, s, f);
            Consistent(w, r.state)
            && Alternates(false, RunCallsOf(log + r.calls), r.state.isRunningEffectPlaying)
  {
    var r := Frame(c, w, s, f);
    FramePreservesConsistent(c, w, s, f);
    FrameRunCallsAlternate(c, w, s, f);
    RunCallsOfAppend(log, r.calls);
    AlternatesAppend(false, RunCallsOf(log), s.isRunningEffectPlaying,
                     RunCallsOf(r.calls), r.state.isRunningEffectPlaying);
  }

  /** After a frame with a run effect, the playing flag is the frame's run condition. */
  lemma RunFlagAfterFrame(c: Config, w: Wiring, s: ControllerState, f: FrameInput)
    ensures w.runEffect ==> Frame(c, w, s, f).state.isRunningEffectPlaying == RunMovingInput(f)
  {
    if w.runEffect {
      FrameRunEdges(c, w, s, f);
    }
  }
}
