/** Properties of one controller frame (`Locomotion.Frame`) for all inputs. */
module FrameProperties {
  import opened Locomotion

  /** The attach-time field values satisfy the reachable-state invariant. */
  lemma InitialConsistent(w: Wiring)
    ensures Consistent(w, Initial)
  {
  }

  /** Every frame keeps the reachable-state invariant: after it, the in-air
      latch is set exactly when the frame ended airborne. */
  lemma FramePreservesConsistent(c: Config, w: Wiring, s: ControllerState, f: FrameInput)
    requires Consistent(w, s)
    ensures Consistent(w, Frame(c, w, s, f).state)
    ensures Frame(c, w, s, f).state.wasInAir == !f.grounded
    ensures Frame(c, w, s, f).state.wasGroundedLastFrame == f.grounded
    ensures Frame(c, w, s, f).state.isGrounded == f.grounded
  {
    var s1 := SampleInput(s, f.axis, f.runKey);
    var s2 := Gravity(c, s1, f.grounded, f.dt);
    var s3 := Jump(c, s2, f.jumpKeyDown);
    assert s3.wasInAir == s2.wasInAir && s3.isGrounded == f.grounded;
  }

  /** The number of times `e` occurs among `calls`. */
  function Count(calls: seq<EngineCall>, e: EngineCall): nat
  {
    multiset(calls)[e]
  }

  /** The calls of one frame, split by the step that makes them. */
  lemma FrameCallsShape(c: Config, w: Wiring, s: ControllerState, f: FrameInput)
    ensures var s1 := SampleInput(s, f.axis, f.runKey);
            var s2 := Gravity(c, s1, f.grounded, f.dt);
            var e := Effects(w, Jump(c, s2, f.jumpKeyDown));
            var run := RunEffect(w, Jump(c, s2, f.jumpKeyDown));
            Frame(c, w, s, f).calls
              == [MoveCall(c, s1, f.dt)] + JumpCalls(w, s2, f.jumpKeyDown) + run.calls
                 + (if Lands(Jump(c, s2, f.jumpKeyDown)) && w.landEffect then [PlayLand] else [])
                 + AnimatorCalls(w, e.state, f.dt)
  {
    var s1 := SampleInput(s, f.axis, f.runKey);
    var s2 := Gravity(c, s1, f.grounded, f.dt);
    var s3 := Jump(c, s2, f.jumpKeyDown);
    var m, j, r := [MoveCall(c, s1, f.dt)], JumpCalls(w, s2, f.jumpKeyDown), RunEffect(w, s3).calls;
    var l, a := if Lands(s3) && w.landEffect then [PlayLand] else [], AnimatorCalls(w, Effects(w, s3).state, f.dt);
    FrameComposition(c, w, s, f, s1, s2, s3, Effects(w, s3).state);
    assert Effects(w, s3).calls == r + l;
    assert m + j + (r + l) + a == m + j + r + l + a;
  }

  /** A frame is its six steps applied in order. */
  lemma FrameComposition(c: Config, w: Wiring, s: ControllerState, f: FrameInput,
                         s1: ControllerState, s2: ControllerState, s3: ControllerState, s4: ControllerState)
    requires s1 == SampleInput(s, f.axis, f.runKey)
    requires s2 == Gravity(c, s1, f.grounded, f.dt)
    requires s3 == Jump(c, s2, f.jumpKeyDown)
    requires s4 == Effects(w, s3).state
    ensures Frame(c, w, s, f).state == s4
    ensures Frame(c, w, s, f).calls
            == [MoveCall(c, s1, f.dt)] + JumpCalls(w, s2, f.jumpKeyDown) + Effects(w, s3).calls
               + AnimatorCalls(w, s4, f.dt)
  {
  }

  lemma CountAppend(a: seq<EngineCall>, b: seq<EngineCall>, e: EngineCall)
    ensures Count(a + b, e) == Count(a, e) + Count(b, e)
  {
    assert multiset(a + b) == multiset(a) + multiset(b);
  }

  /** The count of `e` among the calls of one frame, step by step. */
  lemma FrameCount(c: Config, w: Wiring, s: ControllerState, f: FrameInput, e: EngineCall)
    ensures var s1 := SampleInput(s, f.axis, f.runKey);
            var s2 := Gravity(c, s1, f.grounded, f.dt);
            var s3 := Jump(c, s2, f.jumpKeyDown);
            Count(Frame(c, w, s, f).calls, e)
              == Count([MoveCall(c, s1, f.dt)], e) + Count(JumpCalls(w, s2, f.jumpKeyDown), e)
                 + Count(RunEffect(w, s3).calls, e)
                 + Count(if Lands(s3) && w.landEffect then [PlayLand] else [], e)
                 + Count(AnimatorCalls(w, Effects(w, s3).state, f.dt), e)
  {
    var s1 := SampleInput(s, f.axis, f.runKey);
    var s2 := Gravity(c, s1, f.grounded, f.dt);
    var s3 := Jump(c, s2, f.jumpKeyDown);
    var a, b, r := [MoveCall(c, s1, f.dt)], JumpCalls(w, s2, f.jumpKeyDown), RunEffect(w, s3).calls;
    var l := if Lands(s3) && w.landEffect then [PlayLand] else [];
    var n := AnimatorCalls(w, Effects(w, s3).state, f.dt);
    FrameCallsShape(c, w, s, f);
    assert Frame(c, w, s, f).calls == a + b + r + l + n;
    CountAppend(a + b + r + l, n, e);
    CountAppend(a + b + r, l, e);
    CountAppend(a + b, r, e);
    CountAppend(a, b, e);
  }

  /** The animator step issues only parameter writes. */
  lemma AnimatorCallsCount(w: Wiring, s: ControllerState, dt: real, e: EngineCall)
    requires !e.SetState? && !e.SetVert?
    ensures Count(AnimatorCalls(w, s, dt), e) == 0
  {
    var a := AnimatorCalls(w, s, dt);
    if w.animator {
      assert a == [a[0], a[1]];
    }
  }

  /** The count of a call that only the landing step issues. */
  lemma LandCount(c: Config, w: Wiring, s: ControllerState, f: FrameInput)
    ensures var s1 := SampleInput(s, f.axis, f.runKey);
            var s2 := Gravity(c, s1, f.grounded, f.dt);
            var s3 := Jump(c, s2, f.jumpKeyDown);
            Count(Frame(c, w, s, f).calls, PlayLand) == if Lands(s3) && w.landEffect then 1 else 0
  {
    var s1 := SampleInput(s, f.axis, f.runKey);
    var s2 := Gravity(c, s1, f.grounded, f.dt);
    var s3 := Jump(c, s2, f.jumpKeyDown);
    var s4 := Effects(w, s3).state;
    var m, j, e, a := [MoveCall(c, s1, f.dt)], JumpCalls(w, s2, f.jumpKeyDown), Effects(w, s3).calls,
                      AnimatorCalls(w, s4, f.dt);
    FrameComposition(c, w, s, f, s1, s2, s3, s4);
    assert Frame(c, w, s, f).calls == m + j + e + a;
    CountAppend(m + j + e, a, PlayLand);
    CountAppend(m + j, e, PlayLand);
    CountAppend(m, j, PlayLand);
    AnimatorCallsCount(w, s4, f.dt, PlayLand);
    EffectsLandCount(w, s3);
    assert PlayLand !in m && PlayLand !in j;
  }

  /** The effects step plays the landing effect once when it lands, else never. */
  lemma EffectsLandCount(w: Wiring, s: ControllerState)
    ensures Count(Effects(w, s).calls, PlayLand) == if Lands(s) && w.landEffect then 1 else 0
  {
    var run := RunEffect(w, s);
    var l := if Lands(s) && w.landEffect then [PlayLand] else [];
    assert Lands(run.state) == Lands(s);
    assert Effects(w, s).calls == run.calls + l;
    CountAppend(run.calls, l, PlayLand);
    assert PlayLand !in run.calls;
  }

  /** The landing effect plays on a frame exactly when the previous frame was
      airborne and this one is grounded, and at most once. */
  lemma FrameLandsOnTouchdown(c: Config, w: Wiring, s: ControllerState, f: FrameInput)
    requires Consistent(w, s)
    ensures Count(Frame(c, w, s, f).calls, PlayLand)
            == if w.landEffect && !s.wasGroundedLastFrame && f.grounded then 1 else 0
  {
    var s1 := SampleInput(s, f.axis, f.runKey);
    var s2 := Gravity(c, s1, f.grounded, f.dt);
    var s3 := Jump(c, s2, f.jumpKeyDown);
    LandCount(c, w, s, f);
    assert Lands(s3) <==> !s.wasGroundedLastFrame && f.grounded;
  }

  /** The run dust starts on a frame exactly when the run condition rises, and
      stops exactly when it falls; the playing flag then equals the condition. */
  lemma FrameRunEdges(c: Config, w: Wiring, s: ControllerState, f: FrameInput)
    requires w.runEffect
    ensures Frame(c, w, s, f).state.isRunningEffectPlaying == RunMovingInput(f)
    ensures Count(Frame(c, w, s, f).calls, PlayRun)
            == if RunMovingInput(f) && !s.isRunningEffectPlaying then 1 else 0
    ensures Count(Frame(c, w, s, f).calls, StopRun)
            == if !RunMovingInput(f) && s.isRunningEffectPlaying then 1 else 0
  {
    var s1 := SampleInput(s, f.axis, f.runKey);
    var s2 := Gravity(c, s1, f.grounded, f.dt);
    var s3 := Jump(c, s2, f.jumpKeyDown);
    RunMovingSampled(s, f);
    assert RunMoving(s3) == RunMoving(s1);
    assert s3.isRunningEffectPlaying == s.isRunningEffectPlaying;
    RunCallsFromOtherSteps(c, w, s, f, PlayRun);
    RunCallsFromOtherSteps(c, w, s, f, StopRun);
  }

  /** Only HandleRunEffect issues run-dust calls. */
  lemma RunCallsFromOtherSteps(c: Config, w: Wiring, s: ControllerState, f: FrameInput, e: EngineCall)
    requires e == PlayRun || e == StopRun
    ensures var s3 := Jump(c, Gravity(c, SampleInput(s, f.axis, f.runKey), f.grounded, f.dt), f.jumpKeyDown);
            Count(Frame(c, w, s, f).calls, e) == Count(RunEffect(w, s3).calls, e)
  {
    var s1 := SampleInput(s, f.axis, f.runKey);
    var s2 := Gravity(c, s1, f.grounded, f.dt);
    var s3 := Jump(c, s2, f.jumpKeyDown);
    FrameCount(c, w, s, f, e);
    assert Count([MoveCall(c, s1, f.dt)], e) == 0;
    assert Count(JumpCalls(w, s2, f.jumpKeyDown), e) == 0;
    assert Count(if Lands(s3) && w.landEffect then [PlayLand] else [], e) == 0;
    AnimatorCallsCount(w, Effects(w, s3).state, f.dt, e);
  }

  /** Without a run effect the run dust is never started or stopped and the
      playing flag never changes. */
  lemma FrameWithoutRunEffect(c: Config, w: Wiring, s: ControllerState, f: FrameInput)
    requires !w.runEffect
    ensures Frame(c, w, s, f).state.isRunningEffectPlaying == s.isRunningEffectPlaying
    ensures Count(Frame(c, w, s, f).calls, PlayRun) == 0
    ensures Count(Frame(c, w, s, f).calls, StopRun) == 0
  {
    RunCallsFromOtherSteps(c, w, s, f, PlayRun);
    RunCallsFromOtherSteps(c, w, s, f, StopRun);
  }

  /** The run dust does not look at the grounded flag: running input starts it
      on an airborne frame too. */
  lemma RunDustStartsInTheAir(c: Config, w: Wiring, s: ControllerState, f: FrameInput)
    requires w.runEffect && !s.isRunningEffectPlaying
    requires !f.grounded && RunMovingInput(f)
    ensures PlayRun in Frame(c, w, s, f).calls
  {
    FrameRunEdges(c, w, s, f);
  }

  /** The move of a frame uses the vertical velocity left by the previous
      frame, since movement runs before gravity and jump; its horizontal part
      is zero exactly when the input has no direction. */
  lemma MoveUsesPreviousVelocity(c: Config, w: Wiring, s: ControllerState, f: FrameInput)
    ensures Frame(c, w, s, f).calls[0] == MoveCall(c, SampleInput(s, f.axis, f.runKey), f.dt)
    ensures Frame(c, w, s, f).calls[0].vertical == s.velocityY * f.dt
    ensures c.walkSpeed > 0.0 && c.runSpeed > 0.0 && f.dt > 0.0 ==>
              (Frame(c, w, s, f).calls[0].horizontal == 0.0 <==> !HasDirection(f.axis))
  {
    var s1 := SampleInput(s, f.axis, f.runKey);
    var m := MoveCall(c, s1, f.dt);
    FrameCallsShape(c, w, s, f);
    assert Frame(c, w, s, f).calls[0] == m;
    if HasDirection(f.axis) && c.walkSpeed > 0.0 && c.runSpeed > 0.0 && f.dt > 0.0 {
      PositiveProduct(MoveSpeed(c, f.runKey), f.dt);
    }
  }

  lemma PositiveProduct(a: real, b: real)
    requires a > 0.0 && b > 0.0
    ensures a * b > 0.0
  {
  }

  /** A jump from the ground sets the vertical velocity to the jump velocity
      whatever it was; otherwise the frame leaves the velocity gravity gave it. */
  lemma FrameVelocity(c: Config, w: Wiring, s: ControllerState, f: FrameInput)
    ensures f.jumpKeyDown && f.grounded ==> Frame(c, w, s, f).state.velocityY == c.jumpVelocity
    ensures !(f.jumpKeyDown && f.grounded) ==>
              Frame(c, w, s, f).state.velocityY
                == (if f.grounded && s.velocityY < 0.0 then GroundSnap else s.velocityY) + c.gravity * f.dt
    ensures PlayJump in Frame(c, w, s, f).calls <==> w.jumpEffect && f.jumpKeyDown && f.grounded
  {
    var s1 := SampleInput(s, f.axis, f.runKey);
    var s2 := Gravity(c, s1, f.grounded, f.dt);
    var s3 := Jump(c, s2, f.jumpKeyDown);
    var e := Effects(w, s3);
    FrameCallsShape(c, w, s, f);
    assert e.state.velocityY == s3.velocityY;
    assert PlayJump !in RunEffect(w, s3).calls;
    assert PlayJump !in AnimatorCalls(w, e.state, f.dt);
  }

  /** With a positive jump height and downward gravity, a jump launches upward. */
  lemma JumpLaunchesUpward(c: Config)
    requires ValidConfig(c) && c.gravity < 0.0 && c.jumpHeight > 0.0
    ensures c.jumpVelocity > 0.0
  {
    PositiveProduct(c.jumpHeight, -2.0 * c.gravity);
    assert c.jumpVelocity * c.jumpVelocity > 0.0;
  }

  /** On a grounded frame the vertical velocity never ends below the snap
      value plus one frame of gravity: standing does not accumulate fall speed. */
  lemma GroundedVelocityFloor(c: Config, w: Wiring, s: ControllerState, f: FrameInput)
    requires ValidConfig(c) && c.gravity <= 0.0 && f.dt >= 0.0
    requires f.grounded
    ensures Frame(c, w, s, f).state.velocityY >= GroundSnap + c.gravity * f.dt
  {
    FrameVelocity(c, w, s, f);
    NonPositiveProduct(c.gravity, f.dt);
  }

  lemma NonPositiveProduct(a: real, b: real)
    requires a <= 0.0 && b >= 0.0
    ensures a * b <= 0.0
  {
  }

  /** Standing still on the ground is a fixed point: a grounded frame without a
      jump keeps the vertical velocity at the snap value plus one frame of gravity. */
  lemma GroundedRestIsFixedPoint(c: Config, w: Wiring, s: ControllerState, f: FrameInput)
    requires c.gravity < 0.0 && f.dt > 0.0
    requires f.grounded && !f.jumpKeyDown
    requires s.velocityY == GroundSnap + c.gravity * f.dt
    ensures Frame(c, w, s, f).state.velocityY == s.velocityY
  {
    FrameVelocity(c, w, s, f);
    NonPositiveProduct(c.gravity, f.dt);
  }

  /** An airborne frame integrates gravity and ignores the jump key. */
  lemma AirborneFrameIntegratesGravity(c: Config, w: Wiring, s: ControllerState, f: FrameInput)
    requires !f.grounded
    ensures Frame(c, w, s, f).state.velocityY == s.velocityY + c.gravity * f.dt
    ensures Frame(c, w, s, f).state.wasInAir
    ensures PlayJump !in Frame(c, w, s, f).calls
  {
    FrameVelocity(c, w, s, f);
  }

  /** The animator shows running ("Vert" = 1) exactly when the run dust is
      playing after the frame, when both collaborators are wired. */
  lemma AnimatorAgreesWithRunDust(c: Config, w: Wiring, s: ControllerState, f: FrameInput)
    requires w.animator && w.runEffect
    ensures var r := Frame(c, w, s, f);
            |r.calls| >= 2 && r.calls[|r.calls| - 1].SetVert? &&
            (r.calls[|r.calls| - 1].target == 1.0 <==> r.state.isRunningEffectPlaying)
  {
    var s1 := SampleInput(s, f.axis, f.runKey);
    var s2 := Gravity(c, s1, f.grounded, f.dt);
    var s3 := Jump(c, s2, f.jumpKeyDown);
    var e := Effects(w, s3);
    var a := AnimatorCalls(w, e.state, f.dt);
    FrameCallsShape(c, w, s, f);
    FrameRunEdges(c, w, s, f);
    assert e.state.inputAxis == f.axis && e.state.isRunning == f.runKey;
    assert Frame(c, w, s, f).calls[|Frame(c, w, s, f).calls| - 1] == a[1];
  }

  /** Animator parameters of a frame: "State" is 1 exactly above the deadzone,
      "Vert" is 0 idle, 0.5 walking, 1 running, both from this frame's input. */
  lemma FrameAnimator(c: Config, w: Wiring, s: ControllerState, f: FrameInput)
    requires w.animator
    ensures var r := Frame(c, w, s, f);
            |r.calls| >= 2
            && r.calls[|r.calls| - 2] == SetState(if AboveDeadzone(f.axis) then 1.0 else 0.0)
            && r.calls[|r.calls| - 1].SetVert?
            && r.calls[|r.calls| - 1].target
                 == (if !AboveDeadzone(f.axis) then 0.0 else if f.runKey then 1.0 else 0.5)
  {
    var s1 := SampleInput(s, f.axis, f.runKey);
    var s2 := Gravity(c, s1, f.grounded, f.dt);
    var s3 := Jump(c, s2, f.jumpKeyDown);
    var e := Effects(w, s3);
    var a := AnimatorCalls(w, e.state, f.dt);
    FrameCallsShape(c, w, s, f);
    assert e.state.inputAxis == f.axis && e.state.isRunning == f.runKey;
    var r := Frame(c, w, s, f);
    assert r.calls[|r.calls| - 2] == a[0];
    assert r.calls[|r.calls| - 1] == a[1];
  }

  /** Without an animator a frame writes no animator parameter. */
  lemma FrameWithoutAnimator(c: Config, w: Wiring, s: ControllerState, f: FrameInput)
    requires !w.animator
    ensures forall e :: e in Frame(c, w, s, f).calls ==> !e.SetState? && !e.SetVert?
  {
    var s1 := SampleInput(s, f.axis, f.runKey);
    var s2 := Gravity(c, s1, f.grounded, f.dt);
    var s3 := Jump(c, s2, f.jumpKeyDown);
    var j, e := JumpCalls(w, s2, f.jumpKeyDown), Effects(w, s3).calls;
    FrameCallsShape(c, w, s, f);
    assert AnimatorCalls(w, Effects(w, s3).state, f.dt) == [];
    assert Frame(c, w, s, f).calls == [MoveCall(c, s1, f.dt)] + j + e;
  }

  /** Input below the deadzone but not negligible still moves the character at
      the speed the run key chooses, while the animator reports idle and the
      run dust stays off: movement and the deadzone use different thresholds. */
  lemma SubDeadzoneInputMoves(c: Config, w: Wiring, s: ControllerState, f: FrameInput)
    requires HasDirection(f.axis) && !AboveDeadzone(f.axis)
    ensures Frame(c, w, s, f).calls[0] == Move(MoveSpeed(c, f.runKey) * f.dt, s.velocityY * f.dt)
    ensures AnimatorState(f.axis) == 0.0 && AnimatorVert(f.axis, f.runKey) == 0.0
    ensures !RunMovingInput(f)
  {
    var s1 := SampleInput(s, f.axis, f.runKey);
    FrameCallsShape(c, w, s, f);
    assert Frame(c, w, s, f).calls[0] == MoveCall(c, s1, f.dt);
  }

  /** Such input exists: a twentieth of full deflection on one axis. */
  lemma SubDeadzoneInputExists()
    ensures HasDirection(Axis(0.05, 0.0)) && !AboveDeadzone(Axis(0.05, 0.0))
  {
  }
}
