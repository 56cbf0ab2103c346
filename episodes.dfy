/** Properties of the controller over sequences of frames: the run dust is
    edge-triggered, the landing effect fires once per airborne episode, and
    the vertical velocity integrates gravity while airborne. */
module Episodes {
  import opened Locomotion
  import opened FrameProperties

  /** The controller after running `fs` frame by frame from `s`, with every
      engine call made on the way, in order. */
  function Run(c: Config, w: Wiring, s: ControllerState, fs: seq<FrameInput>): Stepped
    decreases |fs|
  {
    if fs == [] then Stepped(s, [])
    else
      var first := Frame(c, w, s, fs[0]);
      var rest := Run(c, w, first.state, fs[1..]);
      Stepped(rest.state, first.calls + rest.calls)
  }

  // -------------------------------------------------------- edge counting

  /** The number of false-to-true steps of `bs`, `prev` being the value before it. */
  function Rises(prev: bool, bs: seq<bool>): nat
    decreases |bs|
  {
    if bs == [] then 0 else (if bs[0] && !prev then 1 else 0) + Rises(bs[0], bs[1..])
  }

  /** The number of true-to-false steps of `bs`, `prev` being the value before it. */
  function Falls(prev: bool, bs: seq<bool>): nat
    decreases |bs|
  {
    if bs == [] then 0 else (if !bs[0] && prev then 1 else 0) + Falls(bs[0], bs[1..])
  }

  /** The last value of `bs`, or `prev` when it is empty. */
  function Last(prev: bool, bs: seq<bool>): bool
  {
    if bs == [] then prev else bs[|bs| - 1]
  }

  /** The run-dust condition of each frame. */
  function RunConditions(fs: seq<FrameInput>): (bs: seq<bool>)
    ensures |bs| == |fs|
    ensures forall i :: 0 <= i < |fs| ==> bs[i] == RunMovingInput(fs[i])
  {
    if fs == [] then [] else [RunMovingInput(fs[0])] + RunConditions(fs[1..])
  }

  /** The grounded flag of each frame. */
  function GroundedFlags(fs: seq<FrameInput>): (bs: seq<bool>)
    ensures |bs| == |fs|
    ensures forall i :: 0 <= i < |fs| ==> bs[i] == fs[i].grounded
  {
    if fs == [] then [] else [fs[0].grounded] + GroundedFlags(fs[1..])
  }

  /** The sum of the frame times. */
  function TotalTime(fs: seq<FrameInput>): real
  {
    if fs == [] then 0.0 else fs[0].dt + TotalTime(fs[1..])
  }

  /** Rising and falling steps alternate: their difference is fixed by the
      first and the last value. */
  lemma {:induction false} RisesMinusFalls(prev: bool, bs: seq<bool>)
    ensures Rises(prev, bs) - Falls(prev, bs)
            == (if Last(prev, bs) then 1 else 0) - (if prev then 1 else 0)
    decreases |bs|
  {
    if bs != [] {
      RisesMinusFalls(bs[0], bs[1..]);
      assert Last(bs[0], bs[1..]) == Last(prev, bs);
    }
  }

  /** A condition held true rises at most once (only if it was false before)
      and never falls. */
  lemma {:induction false} HeldTrue(prev: bool, bs: seq<bool>)
    requires forall i :: 0 <= i < |bs| ==> bs[i]
    ensures Rises(prev, bs) == (if bs != [] && !prev then 1 else 0)
    ensures Falls(prev, bs) == 0
    decreases |bs|
  {
    if bs != [] {
      HeldTrue(bs[0], bs[1..]);
    }
  }

  /** A condition held false never rises and falls at most once (only if it
      was true before). */
  lemma {:induction false} HeldFalse(prev: bool, bs: seq<bool>)
    requires forall i :: 0 <= i < |bs| ==> !bs[i]
    ensures Rises(prev, bs) == 0
    ensures Falls(prev, bs) == (if bs != [] && prev then 1 else 0)
    decreases |bs|
  {
    if bs != [] {
      HeldFalse(bs[0], bs[1..]);
    }
  }

  /** Some false values followed by some true values rise exactly once. */
  lemma {:induction false} FalseThenTrueRisesOnce(prev: bool, bs: seq<bool>, n: nat)
    requires 1 <= n < |bs|
    requires forall i :: 0 <= i < n ==> !bs[i]
    requires forall i :: n <= i < |bs| ==> bs[i]
    ensures Rises(prev, bs) == 1
  {
    if n == 1 {
      HeldTrue(false, bs[1..]);
    } else {
      FalseThenTrueRisesOnce(false, bs[1..], n - 1);
    }
  }

  // ------------------------------------------------------------ run dust

  /** The run-dust calls among `calls`, in order. */
  function RunCallsOf(calls: seq<EngineCall>): seq<EngineCall>
    decreases |calls|
  {
    if calls == [] then []
    else (if calls[0] == PlayRun || calls[0] == StopRun then [calls[0]] else [])
         + RunCallsOf(calls[1..])
  }

  lemma {:induction false} RunCallsOfAppend(a: seq<EngineCall>, b: seq<EngineCall>)
    ensures RunCallsOf(a + b) == RunCallsOf(a) + RunCallsOf(b)
    decreases |a|
  {
    if a == [] {
      assert a + b == b;
    } else {
      var h := if a[0] == PlayRun || a[0] == StopRun then [a[0]] else [];
      assert (a + b)[0] == a[0];
      assert (a + b)[1..] == a[1..] + b;
      assert RunCallsOf(a + b) == h + RunCallsOf(a[1..] + b);
      RunCallsOfAppend(a[1..], b);
      assert RunCallsOf(a) == h + RunCallsOf(a[1..]);
    }
  }

  lemma {:induction false} RunCallsOfNone(calls: seq<EngineCall>)
    requires forall e :: e in calls ==> e != PlayRun && e != StopRun
    ensures RunCallsOf(calls) == []
  {
    if calls != [] {
      assert calls[0] in calls;
      assert forall e :: e in calls[1..] ==> e in calls;
      RunCallsOfNone(calls[1..]);
    }
  }

  /** `rc` starts and stops the run dust strictly in turn, taking the playing
      flag from `from` to `to`: never two starts or two stops in a row. */
  predicate Alternates(from: bool, rc: seq<EngineCall>, to: bool)
    decreases |rc|
  {
    if rc == [] then from == to
    else rc[0] == (if from then StopRun else PlayRun) && Alternates(!from, rc[1..], to)
  }

  lemma {:induction false} AlternatesAppend(from: bool, a: seq<EngineCall>, mid: bool,
                                            b: seq<EngineCall>, to: bool)
    requires Alternates(from, a, mid) && Alternates(mid, b, to)
    ensures Alternates(from, a + b, to)
    decreases |a|
  {
    if a == [] {
      assert a + b == b;
    } else {
      assert (a + b)[0] == a[0];
      AlternatesAppend(!from, a[1..], mid, b, to);
      assert (a + b)[1..] == a[1..] + b;
    }
  }

  /** Only HandleRunEffect issues run-dust calls within a frame. */
  lemma FrameRunCalls(c: Config, w: Wiring, s: ControllerState, f: FrameInput)
    ensures var s3 := Jump(c, Gravity(c, SampleInput(s, f.axis, f.runKey), f.grounded, f.dt), f.jumpKeyDown);
            RunCallsOf(Frame(c, w, s, f).calls) == RunEffect(w, s3).calls
  {
    var s1 := SampleInput(s, f.axis, f.runKey);
    var s2 := Gravity(c, s1, f.grounded, f.dt);
    var s3 := Jump(c, s2, f.jumpKeyDown);
    FrameCallsShape(c, w, s, f);
    RunCallsOfFrameShape([MoveCall(c, s1, f.dt)], JumpCalls(w, s2, f.jumpKeyDown), RunEffect(w, s3).calls,
                         if Lands(s3) && w.landEffect then [PlayLand] else [],
                         AnimatorCalls(w, Effects(w, s3).state, f.dt));
  }

  /** The run-dust calls of a frame-shaped call list are those of its run-effect part. */
  lemma RunCallsOfFrameShape(m: seq<EngineCall>, j: seq<EngineCall>, r: seq<EngineCall>,
                             l: seq<EngineCall>, a: seq<EngineCall>)
    requires |m| == 1 && m[0].Move?
    requires j == [] || j == [PlayJump]
    requires r == [] || r == [PlayRun] || r == [StopRun]
    requires l == [] || l == [PlayLand]
    requires a == [] || (|a| == 2 && a[0].SetState? && a[1].SetVert?)
    ensures RunCallsOf(m + j + r + l + a) == r
  {
    RunCallsOfAppend(m + j + r + l, a);
    RunCallsOfAppend(m + j + r, l);
    RunCallsOfAppend(m + j, r);
    RunCallsOfAppend(m, j);
    NoRunCallsOutsideRunEffect(m, j, l, a);
    RunCallsOfEffect(r);
  }

  lemma NoRunCallsOutsideRunEffect(m: seq<EngineCall>, j: seq<EngineCall>, l: seq<EngineCall>, a: seq<EngineCall>)
    requires |m| == 1 && m[0].Move?
    requires j == [] || j == [PlayJump]
    requires l == [] || l == [PlayLand]
    requires a == [] || (|a| == 2 && a[0].SetState? && a[1].SetVert?)
    ensures RunCallsOf(m) == [] && RunCallsOf(j) == [] && RunCallsOf(l) == [] && RunCallsOf(a) == []
  {
    RunCallsOfNone(m);
    RunCallsOfNone(j);
    RunCallsOfNone(l);
    if a != [] {
      assert a == [a[0], a[1]];
    }
    RunCallsOfNone(a);
  }

  lemma RunCallsOfEffect(r: seq<EngineCall>)
    requires r == [] || r == [PlayRun] || r == [StopRun]
    ensures RunCallsOf(r) == r
  {
    if r != [] {
      assert r[1..] == [];
    }
  }

  /** The run-dust calls of one frame move the playing flag strictly in turn. */
  lemma FrameRunCallsAlternate(c: Config, w: Wiring, s: ControllerState, f: FrameInput)
    ensures Alternates(s.isRunningEffectPlaying, RunCallsOf(Frame(c, w, s, f).calls),
                       Frame(c, w, s, f).state.isRunningEffectPlaying)
  {
    var s1 := SampleInput(s, f.axis, f.runKey);
    var s2 := Gravity(c, s1, f.grounded, f.dt);
    var s3 := Jump(c, s2, f.jumpKeyDown);
    FrameRunCalls(c, w, s, f);
    var r := RunEffect(w, s3);
    assert Frame(c, w, s, f).state.isRunningEffectPlaying == r.state.isRunningEffectPlaying;
    assert s3.isRunningEffectPlaying == s.isRunningEffectPlaying;
    if r.calls != [] {
      assert r.calls[1..] == [];
    }
  }

  /** Over any frame sequence the run dust is started and stopped strictly in
      turn: a condition held true never gets a second start, one held false
      never gets a second stop. */
  lemma {:induction false} RunCallsAlternate(c: Config, w: Wiring, s: ControllerState, fs: seq<FrameInput>)
    ensures Alternates(s.isRunningEffectPlaying, RunCallsOf(Run(c, w, s, fs).calls),
                       Run(c, w, s, fs).state.isRunningEffectPlaying)
    decreases |fs|
  {
    if fs != [] {
      var first := Frame(c, w, s, fs[0]);
      FrameRunCallsAlternate(c, w, s, fs[0]);
      RunCallsAlternate(c, w, first.state, fs[1..]);
      RunCallsOfAppend(first.calls, Run(c, w, first.state, fs[1..]).calls);
      AlternatesAppend(s.isRunningEffectPlaying, RunCallsOf(first.calls),
                       first.state.isRunningEffectPlaying,
                       RunCallsOf(Run(c, w, first.state, fs[1..]).calls),
                       Run(c, w, s, fs).state.isRunningEffectPlaying);
    }
  }

  /** With a run effect, the run dust is started once per rising edge of the
      run condition and stopped once per falling edge, and afterwards the
      playing flag equals the last frame's condition. */
  lemma {:induction false} RunEffectEdgeTriggered(c: Config, w: Wiring, s: ControllerState, fs: seq<FrameInput>)
    requires w.runEffect
    ensures Count(Run(c, w, s, fs).calls, PlayRun) == Rises(s.isRunningEffectPlaying, RunConditions(fs))
    ensures Count(Run(c, w, s, fs).calls, StopRun) == Falls(s.isRunningEffectPlaying, RunConditions(fs))
    ensures Run(c, w, s, fs).state.isRunningEffectPlaying == Last(s.isRunningEffectPlaying, RunConditions(fs))
    decreases |fs|
  {
    if fs != [] {
      var first := Frame(c, w, s, fs[0]);
      var rest := Run(c, w, first.state, fs[1..]);
      var bs := RunConditions(fs);
      FrameRunEdges(c, w, s, fs[0]);
      RunEffectEdgeTriggered(c, w, first.state, fs[1..]);
      CountAppend(first.calls, rest.calls, PlayRun);
      CountAppend(first.calls, rest.calls, StopRun);
      assert Run(c, w, s, fs) == Stepped(rest.state, first.calls + rest.calls);
      assert bs == [RunMovingInput(fs[0])] + RunConditions(fs[1..]);
      assert bs[1..] == RunConditions(fs[1..]);
      EdgeStep(s.isRunningEffectPlaying, bs, Count(first.calls, PlayRun), Count(first.calls, StopRun),
               Count(rest.calls, PlayRun), Count(rest.calls, StopRun), rest.state.isRunningEffectPlaying);
    }
  }

  /** One step of the edge counts: the first element's edge plus the rest's. */
  lemma EdgeStep(prev: bool, bs: seq<bool>, rise: nat, fall: nat, rises: nat, falls: nat, last: bool)
    requires bs != []
    requires rise == (if bs[0] && !prev then 1 else 0) && fall == (if !bs[0] && prev then 1 else 0)
    requires rises == Rises(bs[0], bs[1..]) && falls == Falls(bs[0], bs[1..]) && last == Last(bs[0], bs[1..])
    ensures rise + rises == Rises(prev, bs) && fall + falls == Falls(prev, bs) && last == Last(prev, bs)
  {
    assert Rises(prev, bs) == (if bs[0] && !prev then 1 else 0) + Rises(bs[0], bs[1..]);
    assert Falls(prev, bs) == (if !bs[0] && prev then 1 else 0) + Falls(bs[0], bs[1..]);
    if |bs| > 1 {
      assert bs[1..][|bs| - 2] == bs[|bs| - 1];
    }
  }

  /** Without a run effect nothing starts or stops the run dust and the
      playing flag keeps its value. */
  lemma {:induction false} NoRunEffectNoRunCalls(c: Config, w: Wiring, s: ControllerState, fs: seq<FrameInput>)
    requires !w.runEffect
    ensures Count(Run(c, w, s, fs).calls, PlayRun) == 0
    ensures Count(Run(c, w, s, fs).calls, StopRun) == 0
    ensures Run(c, w, s, fs).state.isRunningEffectPlaying == s.isRunningEffectPlaying
    decreases |fs|
  {
    if fs != [] {
      var first := Frame(c, w, s, fs[0]);
      var rest := Run(c, w, first.state, fs[1..]);
      FrameWithoutRunEffect(c, w, s, fs[0]);
      NoRunEffectNoRunCalls(c, w, first.state, fs[1..]);
      CountAppend(first.calls, rest.calls, PlayRun);
      CountAppend(first.calls, rest.calls, StopRun);
    }
  }

  /** With a run effect, from the dust off, running over one or more frames
      starts the run dust exactly once and never stops it. */
  lemma SustainedRunStartsOnce(c: Config, w: Wiring, s: ControllerState, fs: seq<FrameInput>)
    requires w.runEffect && !s.isRunningEffectPlaying && fs != []
    requires forall i :: 0 <= i < |fs| ==> RunMovingInput(fs[i])
    ensures Count(Run(c, w, s, fs).calls, PlayRun) == 1
    ensures Count(Run(c, w, s, fs).calls, StopRun) == 0
  {
    RunEffectEdgeTriggered(c, w, s, fs);
    RunHeld(s.isRunningEffectPlaying, fs);
  }

  lemma RunHeld(prev: bool, fs: seq<FrameInput>)
    requires forall i :: 0 <= i < |fs| ==> RunMovingInput(fs[i])
    ensures Rises(prev, RunConditions(fs)) == (if fs != [] && !prev then 1 else 0)
    ensures Falls(prev, RunConditions(fs)) == 0
  {
    HeldTrue(prev, RunConditions(fs));
  }

  lemma IdleHeld(prev: bool, fs: seq<FrameInput>)
    requires forall i :: 0 <= i < |fs| ==> !RunMovingInput(fs[i])
    ensures Rises(prev, RunConditions(fs)) == 0
    ensures Falls(prev, RunConditions(fs)) == (if fs != [] && prev then 1 else 0)
  {
    HeldFalse(prev, RunConditions(fs));
  }

  /** Not running over any number of frames never starts the run dust and
      stops it at most once, only if it was playing. */
  lemma SustainedIdleStopsAtMostOnce(c: Config, w: Wiring, s: ControllerState, fs: seq<FrameInput>)
    requires w.runEffect
    requires forall i :: 0 <= i < |fs| ==> !RunMovingInput(fs[i])
    ensures Count(Run(c, w, s, fs).calls, PlayRun) == 0
    ensures Count(Run(c, w, s, fs).calls, StopRun) == (if fs != [] && s.isRunningEffectPlaying then 1 else 0)
  {
    RunEffectEdgeTriggered(c, w, s, fs);
    IdleHeld(s.isRunningEffectPlaying, fs);
  }

  /** Starts and stops balance: their difference is fixed by the playing flag
      before and after, whether or not a run effect is wired. */
  lemma RunStartsAndStopsBalance(c: Config, w: Wiring, s: ControllerState, fs: seq<FrameInput>)
    ensures Count(Run(c, w, s, fs).calls, PlayRun) - Count(Run(c, w, s, fs).calls, StopRun)
            == (if Run(c, w, s, fs).state.isRunningEffectPlaying then 1 else 0)
               - (if s.isRunningEffectPlaying then 1 else 0)
  {
    if w.runEffect {
      RunEffectEdgeTriggered(c, w, s, fs);
      RisesMinusFalls(s.isRunningEffectPlaying, RunConditions(fs));
    } else {
      NoRunEffectNoRunCalls(c, w, s, fs);
    }
  }

  // ------------------------------------------------------------- landing

  /** From a reachable state, the landing effect plays once per airborne-to-
      grounded step of the grounded flags, and the invariant is kept. */
  lemma {:induction false} LandingCountsTouchdowns(c: Config, w: Wiring, s: ControllerState, fs: seq<FrameInput>)
    requires Consistent(w, s)
    ensures Count(Run(c, w, s, fs).calls, PlayLand)
            == if w.landEffect then Rises(s.wasGroundedLastFrame, GroundedFlags(fs)) else 0
    ensures Consistent(w, Run(c, w, s, fs).state)
    decreases |fs|
  {
    if fs != [] {
      var first := Frame(c, w, s, fs[0]);
      var rest := Run(c, w, first.state, fs[1..]);
      FrameLandsOnTouchdown(c, w, s, fs[0]);
      FramePreservesConsistent(c, w, s, fs[0]);
      LandingCountsTouchdowns(c, w, first.state, fs[1..]);
      CountAppend(first.calls, rest.calls, PlayLand);
      assert Run(c, w, s, fs) == Stepped(rest.state, first.calls + rest.calls);
      var gs := GroundedFlags(fs);
      assert gs == [fs[0].grounded] + GroundedFlags(fs[1..]);
      assert gs[1..] == GroundedFlags(fs[1..]);
      EdgeStep(s.wasGroundedLastFrame, gs, if gs[0] && !s.wasGroundedLastFrame then 1 else 0,
               if !gs[0] && s.wasGroundedLastFrame then 1 else 0,
               Rises(gs[0], gs[1..]), Falls(gs[0], gs[1..]), Last(gs[0], gs[1..]));
    }
  }

  /** Grounded, then airborne for `n` >= 1 frames, then grounded again: the
      landing effect plays exactly once, whatever `n`. */
  lemma AirborneEpisodeLandsOnce(c: Config, w: Wiring, s: ControllerState, fs: seq<FrameInput>, n: nat)
    requires w.landEffect && Consistent(w, s)
    requires 1 <= n < |fs|
    requires forall i :: 0 <= i < n ==> !fs[i].grounded
    requires forall i :: n <= i < |fs| ==> fs[i].grounded
    ensures Count(Run(c, w, s, fs).calls, PlayLand) == 1
  {
    LandingCountsTouchdowns(c, w, s, fs);
    AirborneEpisodeTouchesDownOnce(s.wasGroundedLastFrame, fs, n);
  }

  lemma AirborneEpisodeTouchesDownOnce(prev: bool, fs: seq<FrameInput>, n: nat)
    requires 1 <= n < |fs|
    requires forall i :: 0 <= i < n ==> !fs[i].grounded
    requires forall i :: n <= i < |fs| ==> fs[i].grounded
    ensures Rises(prev, GroundedFlags(fs)) == 1
  {
    var gs := GroundedFlags(fs);
    FalseThenTrueRisesOnce(prev, gs, n);
  }

  /** From the attach-time state, a character that never leaves the ground
      never plays the landing effect. */
  lemma NeverAirborneNeverLands(c: Config, w: Wiring, fs: seq<FrameInput>)
    requires forall i :: 0 <= i < |fs| ==> fs[i].grounded
    ensures Count(Run(c, w, Initial, fs).calls, PlayLand) == 0
  {
    InitialConsistent(w);
    LandingCountsTouchdowns(c, w, Initial, fs);
    GroundedHeld(Initial.wasGroundedLastFrame, fs);
  }

  lemma GroundedHeld(prev: bool, fs: seq<FrameInput>)
    requires forall i :: 0 <= i < |fs| ==> fs[i].grounded
    ensures Rises(prev, GroundedFlags(fs)) == (if fs != [] && !prev then 1 else 0)
  {
    HeldTrue(prev, GroundedFlags(fs));
  }

  // ------------------------------------------------------------- gravity

  /** The velocity gained from gravity over `fs`, frame by frame. */
  function GravityGain(g: real, fs: seq<FrameInput>): real
    decreases |fs|
  {
    if fs == [] then 0.0 else g * fs[0].dt + GravityGain(g, fs[1..])
  }

  /** Gained frame by frame, it is gravity times the total time. */
  lemma {:induction false} GravityGainIsProduct(g: real, fs: seq<FrameInput>)
    ensures GravityGain(g, fs) == g * TotalTime(fs)
    decreases |fs|
  {
    if fs != [] {
      GravityGainIsProduct(g, fs[1..]);
      assert g * TotalTime(fs) == g * (fs[0].dt + TotalTime(fs[1..]));
    }
  }

  lemma {:induction false} AirborneGainsGravity(c: Config, w: Wiring, s: ControllerState, fs: seq<FrameInput>)
    requires forall i :: 0 <= i < |fs| ==> !fs[i].grounded
    ensures Run(c, w, s, fs).state.velocityY == s.velocityY + GravityGain(c.gravity, fs)
    ensures PlayJump !in Run(c, w, s, fs).calls
    decreases |fs|
  {
    if fs != [] {
      var first := Frame(c, w, s, fs[0]);
      var rest := Run(c, w, first.state, fs[1..]);
      AirborneFrameIntegratesGravity(c, w, s, fs[0]);
      AirborneGainsGravity(c, w, first.state, fs[1..]);
      assert Run(c, w, s, fs) == Stepped(rest.state, first.calls + rest.calls);
    }
  }

  /** While airborne the vertical velocity integrates gravity over the
      elapsed time, and jump keys are ignored. */
  lemma AirborneIntegratesGravity(c: Config, w: Wiring, s: ControllerState, fs: seq<FrameInput>)
    requires forall i :: 0 <= i < |fs| ==> !fs[i].grounded
    ensures Run(c, w, s, fs).state.velocityY == s.velocityY + c.gravity * TotalTime(fs)
    ensures PlayJump !in Run(c, w, s, fs).calls
  {
    AirborneGainsGravity(c, w, s, fs);
    GravityGainIsProduct(c.gravity, fs);
  }
}
