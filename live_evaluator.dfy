/** The live layer-animation evaluator of the editor: the clock, the quadratic ease, the
    keyframe blend and the effect catalogue of the `update` closure built by
    `createAnimationForLayer`, as functions of the layer's configuration and a time sample. */
module LiveEvaluator {
  import opened JsMath
  import opened LayerTypes
  import opened EffectMath

  /** Elapsed animation seconds of a handle at wall-clock `now` (ms), scaled by its speed. */
  function Elapsed(h: Handle, now: real): real
  {
    (now - h.startTime) / 1000.0 * h.speed
  }

  /** The cycle fraction; a non-looping animation past its duration is pinned to 1. */
  function LiveProgress(elapsed: real, duration: NonZero, loop: bool): real
  {
    if !loop && elapsed > duration then 1.0 else JsMod(elapsed, duration) / duration
  }

  /** Progress of a running cycle lies in [0, 1); past the end of a non-looping one it is 1. */
  lemma LiveProgressRange(elapsed: real, duration: NonZero, loop: bool)
    requires elapsed >= 0.0 && duration > 0.0
    ensures !loop && elapsed > duration ==> LiveProgress(elapsed, duration, loop) == 1.0
    ensures loop || elapsed <= duration ==> 0.0 <= LiveProgress(elapsed, duration, loop) < 1.0
  {
    JsModRange(elapsed, duration);
    var r := JsMod(elapsed, duration);
    assert r / duration < 1.0 by { MulStrict(r / duration, 1.0, duration); }
  }

  /** A looping animation wraps exactly at the cycle boundary. */
  lemma LiveProgressWraps(elapsed: real, duration: NonZero)
    requires elapsed >= 0.0 && duration > 0.0
    ensures LiveProgress(elapsed + duration, duration, true) == LiveProgress(elapsed, duration, true)
  {
    JsModPeriodic(elapsed, duration);
  }

  /** At exactly `elapsed == duration` the pin does not apply yet (the test is `>`), so a
      non-looping animation shows its start pose for that one sample. */
  lemma LiveProgressAtBoundary(duration: NonZero)
    requires duration > 0.0
    ensures LiveProgress(duration, duration, false) == 0.0
    ensures EaseInOut(LiveProgress(duration, duration, false)) == 0.0
  {
    assert duration / duration == 1.0;
    assert Trunc(duration / duration) == 1;
  }

  /** The base pose of a layer: its `original*` fields. */
  function BasePose(c: LayerConfig): Pose
  {
    Pose(c.originalPosition, c.originalRotation, c.originalScale, c.originalOpacity)
  }

  /** The live keyframe blend: replaces position, uniform scale, opacity and the z rotation
      (degrees converted to radians); keeps the x and y rotations. */
  function LiveBlend(p: Pose, ca: CustomAnimation, e: real): Pose
  {
    var s, n := ca.start, ca.end;
    var scale := Lerp(s.scale, n.scale, e);
    Pose(Vec3(Lerp(s.x, n.x, e), Lerp(s.y, n.y, e), Lerp(s.z, n.z, e)),
         p.rotation.(z := DegToRad(Lerp(s.rotation, n.rotation, e))),
         Vec3(scale, scale, scale),
         Lerp(s.opacity, n.opacity, e))
  }

  /** The pose the live `update(now)` of handle `h` writes to the mesh of a layer whose
      current configuration is `c`. */
  function LivePose(c: LayerConfig, h: Handle, now: real, m: MathLib): Pose
  {
    var elapsed := Elapsed(h, now);
    var progress := LiveProgress(elapsed, h.duration, h.loop);
    var e := EaseInOut(progress);
    var base := BasePose(c);
    var blended := if c.enableCustomAnimation then LiveBlend(base, c.customAnimation, e) else base;
    ApplyEffect(blended, ParseEffect(c.specialEffect), c.enableCustomAnimation, c.settings,
                progress, elapsed, e, m, Radians)
  }

  /** Once a non-looping animation has run past its duration the pose no longer depends on
      the time, for every effect except pendulumMove (which reads the elapsed time directly). */
  lemma LiveHoldsEndPose(c: LayerConfig, h: Handle, now1: real, now2: real, m: MathLib)
    requires !h.loop
    requires Elapsed(h, now1) > h.duration && Elapsed(h, now2) > h.duration
    requires ParseEffect(c.specialEffect) != PendulumMove
    ensures LivePose(c, h, now1, m) == LivePose(c, h, now2, m)
    ensures LiveProgress(Elapsed(h, now1), h.duration, h.loop) == 1.0
    ensures EaseInOut(LiveProgress(Elapsed(h, now1), h.duration, h.loop)) == 1.0
  {
    var e1, e2 := Elapsed(h, now1), Elapsed(h, now2);
    assert LiveProgress(e1, h.duration, false) == LiveProgress(e2, h.duration, false) == 1.0;
    var base := BasePose(c);
    var blended := if c.enableCustomAnimation then LiveBlend(base, c.customAnimation, EaseInOut(1.0)) else base;
    ElapsedOnlyForPendulum(blended, ParseEffect(c.specialEffect), c.enableCustomAnimation, c.settings,
                           1.0, e1, e2, EaseInOut(1.0), m, Radians);
  }

  /** A looping animation repeats its pose one cycle later, for every effect except
      pendulumMove. */
  lemma LiveLoopRepeats(c: LayerConfig, h: Handle, now: real, m: MathLib)
    requires h.loop && h.duration > 0.0 && h.speed > 0.0
    requires Elapsed(h, now) >= 0.0
    requires ParseEffect(c.specialEffect) != PendulumMove
    ensures LivePose(c, h, now + h.duration * 1000.0 / h.speed, m) == LivePose(c, h, now, m)
  {
    var later := now + h.duration * 1000.0 / h.speed;
    assert Elapsed(h, later) == Elapsed(h, now) + h.duration by {
      assert (later - h.startTime) / 1000.0 * h.speed
          == (now - h.startTime) / 1000.0 * h.speed + h.duration * 1000.0 / h.speed / 1000.0 * h.speed;
    }
    LiveProgressWraps(Elapsed(h, now), h.duration);
    var progress := LiveProgress(Elapsed(h, now), h.duration, h.loop);
    var e := EaseInOut(progress);
    var base := BasePose(c);
    var blended := if c.enableCustomAnimation then LiveBlend(base, c.customAnimation, e) else base;
    ElapsedOnlyForPendulum(blended, ParseEffect(c.specialEffect), c.enableCustomAnimation, c.settings,
                           progress, Elapsed(h, later), Elapsed(h, now), e, m, Radians);
  }

  /** With the custom animation on and no effect, the pose is exactly the keyframe blend:
      the z rotation is the blended degrees converted to radians, the x and y rotations keep
      their original values, and nothing is added on top. */
  lemma LiveCustomBlend(c: LayerConfig, h: Handle, now: real, m: MathLib)
    requires c.enableCustomAnimation && c.specialEffect == "none"
    ensures var e := EaseInOut(LiveProgress(Elapsed(h, now), h.duration, h.loop));
            var p := LivePose(c, h, now, m);
            var s, n := c.customAnimation.start, c.customAnimation.end;
            && p.position == Vec3(Lerp(s.x, n.x, e), Lerp(s.y, n.y, e), Lerp(s.z, n.z, e))
            && p.scale == Vec3(Lerp(s.scale, n.scale, e), Lerp(s.scale, n.scale, e), Lerp(s.scale, n.scale, e))
            && p.opacity == Lerp(s.opacity, n.opacity, e)
            && p.rotation == Vec3(c.originalRotation.x, c.originalRotation.y,
                                  DegToRad(Lerp(s.rotation, n.rotation, e)))
  {
    var elapsed := Elapsed(h, now);
    var progress := LiveProgress(elapsed, h.duration, h.loop);
    var e := EaseInOut(progress);
    var blended := LiveBlend(BasePose(c), c.customAnimation, e);
    NoEffectIsIdentity(blended, NoEffect, true, c.settings, progress, elapsed, e, m, Radians);
  }

  /** The blend shows the start keyframe at the first sample of a cycle and the end
      keyframe once a non-looping animation has run out. */
  lemma LiveBlendEnds(p: Pose, ca: CustomAnimation)
    ensures var b0 := LiveBlend(p, ca, EaseInOut(0.0));
            b0.position == Vec3(ca.start.x, ca.start.y, ca.start.z) && b0.opacity == ca.start.opacity
            && b0.scale == Vec3(ca.start.scale, ca.start.scale, ca.start.scale)
            && b0.rotation.z == DegToRad(ca.start.rotation)
    ensures var b1 := LiveBlend(p, ca, EaseInOut(1.0));
            b1.position == Vec3(ca.end.x, ca.end.y, ca.end.z) && b1.opacity == ca.end.opacity
            && b1.scale == Vec3(ca.end.scale, ca.end.scale, ca.end.scale)
            && b1.rotation.z == DegToRad(ca.end.rotation)
  {
    EaseInOutRange(0.0);
    EaseInOutRange(1.0);
  }

  /** Bounce sampled a quarter second into a two-second looping cycle: progress 1/8,
      eased 1/32, and y raised by |sin(pi/8)| * bounceHeight. */
  lemma LiveBounceScenario(c: LayerConfig, m: MathLib)
    requires c.specialEffect == "bounce" && !c.enableCustomAnimation
    requires c.settings.bounceHeight == 2.0 && c.settings.bounceFreq == 4.0
    ensures var h := Handle(0.0, 2.0, 1.0, true);
            var p := LivePose(c, h, 250.0, m);
            && LiveProgress(Elapsed(h, 250.0), h.duration, h.loop) == 0.125
            && EaseInOut(0.125) == 0.03125
            && p.position.y == c.originalPosition.y + Abs(m.sin(0.03125 * Pi * 4.0)) * 2.0
            && p.position.x == c.originalPosition.x
  {
    var h := Handle(0.0, 2.0, 1.0, true);
    assert Elapsed(h, 250.0) == 0.25;
    JsModSmall(0.25, 2.0);
    assert ParseEffect("bounce") == Bounce;
  }

  /** The keyframe scenario: x from 0 to 10, sampled at progress 1/2, gives x = 5. */
  lemma LiveKeyframeScenario(c: LayerConfig, m: MathLib)
    requires c.enableCustomAnimation && c.specialEffect == "none"
    requires c.customAnimation.start.x == 0.0 && c.customAnimation.end.x == 10.0
    ensures LivePose(c, Handle(0.0, 2.0, 1.0, true), 1000.0, m).position.x == 5.0
  {
    var h := Handle(0.0, 2.0, 1.0, true);
    assert Elapsed(h, 1000.0) == 1.0;
    JsModSmall(1.0, 2.0);
    assert LiveProgress(1.0, 2.0, true) == 0.5;
  }
}
