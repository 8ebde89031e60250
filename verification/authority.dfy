/**
 What the primary node does to the shared state: the per-frame advance of
 time, angle and frame counter with a regeneration every 30th frame, and the
 reset command.
 */
module Authority {
  import opened Generator
  import opened SharedState

  /** Frames between two scheduled regenerations. */
  const RegenerationPeriod: int := 30

  /** Degrees the angle turns per second of animation. */
  const DegreesPerSecond: real := 90.0

  /** The state after one primary frame, and whether the texture was regenerated in it. */
  datatype Step = Step(state: TextureState, regenerated: bool)

  /**
   The primary branch of onAnimate: time and angle advance by dt, the angle
   is wrapped by a single subtraction of 360, the counter is incremented and
   the texture regenerated when the new counter is a multiple of 30.
   */
  function Advance(cfg: Config, s: TextureState, dt: real): (st: Step)
    ensures st.state.time == s.time + dt
    ensures st.state.frameCounter == s.frameCounter + 1
    ensures s.angle + dt * DegreesPerSecond < 360.0 ==> st.state.angle == s.angle + dt * DegreesPerSecond
    ensures s.angle + dt * DegreesPerSecond >= 360.0 ==> st.state.angle == s.angle + dt * DegreesPerSecond - 360.0
    ensures st.regenerated <==> (s.frameCounter + 1) % RegenerationPeriod == 0
    ensures st.regenerated ==> st.state.textureNeedsUpdate && WellSized(cfg, st.state)
    ensures st.regenerated ==> st.state.textureData == Texture(cfg.dims, cfg.shader, InputsOf(st.state))
    ensures !st.regenerated ==> st.state.textureData == s.textureData
    ensures !st.regenerated ==> st.state.textureNeedsUpdate == s.textureNeedsUpdate
  {
    var turned := s.angle + dt * DegreesPerSecond;
    var moved := s.(
      time := s.time + dt,
      angle := if turned >= 360.0 then turned - 360.0 else turned,
      frameCounter := s.frameCounter + 1);
    if moved.frameCounter % RegenerationPeriod == 0 then Step(Regenerate(cfg, moved), true)
    else Step(moved, false)
  }

  /** A zero-length frame keeps clock and an in-range angle, but still counts a frame. */
  lemma AdvanceZeroStep(cfg: Config, s: TextureState)
    requires 0.0 <= s.angle < 360.0
    ensures Advance(cfg, s, 0.0).state.time == s.time
    ensures Advance(cfg, s, 0.0).state.angle == s.angle
    ensures Advance(cfg, s, 0.0).state.frameCounter == s.frameCounter + 1
  {
  }

  /** The single subtraction keeps the angle in [0, 360) as long as one frame turns less than a full circle. */
  lemma AngleStaysInRange(cfg: Config, s: TextureState, dt: real)
    requires 0.0 <= s.angle < 360.0
    requires 0.0 <= dt * DegreesPerSecond < 360.0
    ensures 0.0 <= Advance(cfg, s, dt).state.angle < 360.0
  {
  }

  /** A frame of 8 seconds turns 720 degrees; one subtraction leaves the angle at 360, outside the range. */
  lemma LongFrameLeavesRange(cfg: Config, s: TextureState)
    requires s.angle == 0.0
    ensures Advance(cfg, s, 8.0).state.angle == 360.0
  {
  }

  /** Counter 29 to 30 and 59 to 60 regenerate, with the new clock, angle and counter; 0 to 1 and 30 to 31 do not. */
  lemma CadenceBoundaries(cfg: Config, s: TextureState, dt: real)
    ensures s.frameCounter == 29 ==>
              Advance(cfg, s, dt).regenerated &&
              Advance(cfg, s, dt).state.textureData ==
                Texture(cfg.dims, cfg.shader, Inputs(s.time + dt, Advance(cfg, s, dt).state.angle, 30))
    ensures s.frameCounter == 59 ==> Advance(cfg, s, dt).regenerated
    ensures s.frameCounter == 0 || s.frameCounter == 30 ==> !Advance(cfg, s, dt).regenerated
  {
    var st := Advance(cfg, s, dt);
    if s.frameCounter == 29 {
      assert InputsOf(st.state) == Inputs(s.time + dt, st.state.angle, 30);
    }
  }

  /** The reset command: clock, angle and counter back to zero, texture and flag kept. */
  function Reset(s: TextureState): (r: TextureState)
    ensures r.time == 0.0 && r.angle == 0.0 && r.frameCounter == 0
    ensures r.textureData == s.textureData && r.textureNeedsUpdate == s.textureNeedsUpdate
  {
    s.(time := 0.0, angle := 0.0, frameCounter := 0)
  }

  /** Sum of a sequence of frame durations. */
  function Sum(dts: seq<real>): real {
    if dts == [] then 0.0 else Sum(dts[..|dts| - 1]) + dts[|dts| - 1]
  }

  /** A run of primary frames: the final state and how many regenerations happened. */
  datatype Trace = Trace(state: TextureState, regenerations: nat)

  function Run(cfg: Config, s: TextureState, dts: seq<real>): Trace
  {
    if dts == [] then Trace(s, 0)
    else
      var prev := Run(cfg, s, dts[..|dts| - 1]);
      var st := Advance(cfg, prev.state, dts[|dts| - 1]);
      Trace(st.state, prev.regenerations + if st.regenerated then 1 else 0)
  }

  /** Number of multiples of 30 in the interval (lo, hi], for lo <= hi. */
  function MultiplesBetween(lo: int, hi: int): int {
    hi / RegenerationPeriod - lo / RegenerationPeriod
  }

  /** Extending the interval by one adds a multiple exactly when the new end is one. */
  lemma MultiplesStep(lo: int, hi: int)
    ensures MultiplesBetween(lo, hi + 1) == MultiplesBetween(lo, hi) + if (hi + 1) % RegenerationPeriod == 0 then 1 else 0
  {
  }

  /**
   Over n frames the counter grows by exactly n, the clock by the sum of the
   frame durations, and the texture is regenerated once per multiple of 30
   passed.
   */
  lemma {:induction false} RunCounts(cfg: Config, s: TextureState, dts: seq<real>)
    ensures Run(cfg, s, dts).state.frameCounter == s.frameCounter + |dts|
    ensures Run(cfg, s, dts).state.time == s.time + Sum(dts)
    ensures Run(cfg, s, dts).regenerations == MultiplesBetween(s.frameCounter, s.frameCounter + |dts|)
  {
    if dts != [] {
      var init := dts[..|dts| - 1];
      RunCounts(cfg, s, init);
      MultiplesStep(s.frameCounter, s.frameCounter + |init|);
    }
  }

  /** Frames that each turn less than a full circle keep the angle in [0, 360) for the whole run. */
  lemma {:induction false} RunAngleInRange(cfg: Config, s: TextureState, dts: seq<real>)
    requires 0.0 <= s.angle < 360.0
    requires forall i :: 0 <= i < |dts| ==> 0.0 <= dts[i] * DegreesPerSecond < 360.0
    ensures 0.0 <= Run(cfg, s, dts).state.angle < 360.0
  {
    if dts != [] {
      var init := dts[..|dts| - 1];
      RunAngleInRange(cfg, s, init);
      AngleStaysInRange(cfg, Run(cfg, s, init).state, dts[|dts| - 1]);
    }
  }

  /** After a reset, 29 frames pass without a regeneration and the 30th regenerates. */
  lemma {:induction false} ResetRestartsCadence(cfg: Config, s: TextureState, dts: seq<real>)
    requires |dts| == 30
    ensures Run(cfg, Reset(s), dts[..29]).regenerations == 0
    ensures Run(cfg, Reset(s), dts).regenerations == 1
    ensures Run(cfg, Reset(s), dts).state.frameCounter == 30
  {
    RunCounts(cfg, Reset(s), dts[..29]);
    RunCounts(cfg, Reset(s), dts);
  }
}
