/** Where the three evaluators agree and where they provably differ: the live editor
    (radians, base pose from the layer), the controls page (degrees, base pose from the
    `data-original-*` attributes) and the legacy page (degrees, base pose from what the
    plane displays). */
module EvaluatorAgreement {
  import opened JsMath
  import opened Common
  import opened LayerTypes
  import opened EffectMath
  import opened LiveEvaluator
  import opened Layers
  import opened ExportedPlanes
  import opened ControlsExport
  import opened LegacyExport

  /** The effect `switch` run in radians on `p` and in degrees on `q` gives the same
      position and scale when it starts from the same ones, leaves the x and y rotations of
      both alone, keeps the offset `delta` between the degree z rotation and the radian one,
      and scales both opacities by the eased progress for fadeIn only. waveToTarget is the
      exception: its tilt is `waveY * 0.2` in either unit. */
  lemma UnitsAgree(p: Pose, q: Pose, delta: real, effect: Effect, custom: bool, s: EffectSettings,
                   progress: real, elapsed: real, e: real, m: MathLib)
    requires effect != WaveToTarget
    requires q.position == p.position && q.scale == p.scale
    requires q.rotation.z == RadToDeg(p.rotation.z) + delta
    ensures var a := ApplyEffect(p, effect, custom, s, progress, elapsed, e, m, Radians);
            var b := ApplyEffect(q, effect, custom, s, progress, elapsed, e, m, Degrees);
            && b.position == a.position && b.scale == a.scale
            && a.rotation.x == p.rotation.x && a.rotation.y == p.rotation.y
            && b.rotation.x == q.rotation.x && b.rotation.y == q.rotation.y
            && b.rotation.z == RadToDeg(a.rotation.z) + delta
            && a.opacity == Faded(p.opacity, e, effect == FadeIn) && b.opacity == Faded(q.opacity, e, effect == FadeIn)
  {
    if effect == SwingToTarget || effect == PendulumMove || effect == Rotate {
      TurnsAgree(p, q, delta, effect, custom, s, progress, elapsed, e, m);
    } else {
      StillAgree(p, q, delta, effect, custom, s, progress, elapsed, e, m);
    }
  }

  /** The effects that turn the plane add the same angle in either unit. */
  lemma TurnsAgree(p: Pose, q: Pose, delta: real, effect: Effect, custom: bool, s: EffectSettings,
                   progress: real, elapsed: real, e: real, m: MathLib)
    requires effect == SwingToTarget || effect == PendulumMove || effect == Rotate
    requires q.position == p.position && q.scale == p.scale
    requires q.rotation.z == RadToDeg(p.rotation.z) + delta
    ensures var a := ApplyEffect(p, effect, custom, s, progress, elapsed, e, m, Radians);
            var b := ApplyEffect(q, effect, custom, s, progress, elapsed, e, m, Degrees);
            && b.position == a.position && b.scale == a.scale
            && a.rotation.x == p.rotation.x && a.rotation.y == p.rotation.y
            && b.rotation.x == q.rotation.x && b.rotation.y == q.rotation.y
            && b.rotation.z == RadToDeg(a.rotation.z) + delta
            && a.opacity == Faded(p.opacity, e, effect == FadeIn) && b.opacity == Faded(q.opacity, e, effect == FadeIn)
  {
    match effect
    case SwingToTarget =>
      var deg := SwingAngle(s, progress, e, m);
      DegRadAdditive(p.rotation.z, DegToRad(deg));
      DegRadInverse(deg, 0.0);
    case PendulumMove =>
      var deg := PendulumAngle(s, elapsed, m);
      DegRadAdditive(p.rotation.z, DegToRad(deg));
      DegRadInverse(deg, 0.0);
    case Rotate =>
      FadeScaleRotate(p, custom, s, progress, elapsed, e, m, Radians);
      FadeScaleRotate(q, custom, s, progress, elapsed, e, m, Degrees);
      DegRadAdditive(p.rotation.z, RotateTurn(Radians, s, e));
      DegRadInverse(RotateTurn(Degrees, s, e), 0.0);
  }

  /** The effects that do not turn the plane leave both rotations alone. */
  lemma StillAgree(p: Pose, q: Pose, delta: real, effect: Effect, custom: bool, s: EffectSettings,
                   progress: real, elapsed: real, e: real, m: MathLib)
    requires effect !in {WaveToTarget, SwingToTarget, PendulumMove, Rotate}
    requires q.position == p.position && q.scale == p.scale
    requires q.rotation.z == RadToDeg(p.rotation.z) + delta
    ensures var a := ApplyEffect(p, effect, custom, s, progress, elapsed, e, m, Radians);
            var b := ApplyEffect(q, effect, custom, s, progress, elapsed, e, m, Degrees);
            && b.position == a.position && b.scale == a.scale
            && a.rotation.x == p.rotation.x && a.rotation.y == p.rotation.y
            && b.rotation.x == q.rotation.x && b.rotation.y == q.rotation.y
            && b.rotation.z == RadToDeg(a.rotation.z) + delta
            && a.opacity == Faded(p.opacity, e, effect == FadeIn) && b.opacity == Faded(q.opacity, e, effect == FadeIn)
  {
    if effect == FadeIn || effect == ScaleIn {
      GrowAgree(p, q, delta, effect, custom, s, progress, elapsed, e, m);
    } else if effect in {SlideDown, SlideUp, SlideLeft, SlideRight} {
      SlidesAgree(p, q, delta, effect, custom, s, progress, elapsed, e, m);
    } else {
      FixedAgree(p, q, delta, effect, custom, s, progress, elapsed, e, m);
    }
  }

  /** zigzagToTarget, elasticMove, bounce, spiral and no effect move or scale both poses
      alike and leave their rotations alone. */
  lemma FixedAgree(p: Pose, q: Pose, delta: real, effect: Effect, custom: bool, s: EffectSettings,
                   progress: real, elapsed: real, e: real, m: MathLib)
    requires effect in {ZigzagToTarget, ElasticMove, Bounce, Spiral, NoEffect, UnknownEffect}
    requires q.position == p.position && q.scale == p.scale
    requires q.rotation.z == RadToDeg(p.rotation.z) + delta
    ensures Agree(p, q, delta, effect, custom, s, progress, elapsed, e, m)
  {
    if effect == ZigzagToTarget || effect == ElasticMove {
      TargetMovesAgree(p, q, delta, effect, custom, s, progress, elapsed, e, m);
    } else {
      assert Agree(p, q, delta, effect, custom, s, progress, elapsed, e, m);
    }
  }

  /** zigzagToTarget and elasticMove add the same move toward their target to both poses. */
  lemma TargetMovesAgree(p: Pose, q: Pose, delta: real, effect: Effect, custom: bool, s: EffectSettings,
                         progress: real, elapsed: real, e: real, m: MathLib)
    requires effect == ZigzagToTarget || effect == ElasticMove
    requires q.position == p.position && q.scale == p.scale
    requires q.rotation.z == RadToDeg(p.rotation.z) + delta
    ensures Agree(p, q, delta, effect, custom, s, progress, elapsed, e, m)
  {
    if effect == ZigzagToTarget {
      assert Agree(p, q, delta, effect, custom, s, progress, elapsed, e, m);
    } else {
      assert Agree(p, q, delta, effect, custom, s, progress, elapsed, e, m);
    }
  }

  /** The agreement `UnitsAgree` states, for one effect. */
  predicate Agree(p: Pose, q: Pose, delta: real, effect: Effect, custom: bool, s: EffectSettings,
                  progress: real, elapsed: real, e: real, m: MathLib)
  {
    var a := ApplyEffect(p, effect, custom, s, progress, elapsed, e, m, Radians);
    var b := ApplyEffect(q, effect, custom, s, progress, elapsed, e, m, Degrees);
    && b.position == a.position && b.scale == a.scale
    && a.rotation.x == p.rotation.x && a.rotation.y == p.rotation.y
    && b.rotation.x == q.rotation.x && b.rotation.y == q.rotation.y
    && b.rotation.z == RadToDeg(a.rotation.z) + delta
    && a.opacity == Faded(p.opacity, e, effect == FadeIn) && b.opacity == Faded(q.opacity, e, effect == FadeIn)
  }

  /** The slides move both poses by the same offset. */
  lemma SlidesAgree(p: Pose, q: Pose, delta: real, effect: Effect, custom: bool, s: EffectSettings,
                    progress: real, elapsed: real, e: real, m: MathLib)
    requires effect in {SlideDown, SlideUp, SlideLeft, SlideRight}
    requires q.position == p.position && q.scale == p.scale
    requires q.rotation.z == RadToDeg(p.rotation.z) + delta
    ensures Agree(p, q, delta, effect, custom, s, progress, elapsed, e, m)
  {
    if effect == SlideDown || effect == SlideUp {
      assert Agree(p, q, delta, effect, custom, s, progress, elapsed, e, m);
    } else {
      assert Agree(p, q, delta, effect, custom, s, progress, elapsed, e, m);
    }
  }

  /** fadeIn and scaleIn scale the opacity or the scale by the eased progress in either unit. */
  lemma GrowAgree(p: Pose, q: Pose, delta: real, effect: Effect, custom: bool, s: EffectSettings,
                  progress: real, elapsed: real, e: real, m: MathLib)
    requires effect == FadeIn || effect == ScaleIn
    requires q.position == p.position && q.scale == p.scale
    requires q.rotation.z == RadToDeg(p.rotation.z) + delta
    ensures var a := ApplyEffect(p, effect, custom, s, progress, elapsed, e, m, Radians);
            var b := ApplyEffect(q, effect, custom, s, progress, elapsed, e, m, Degrees);
            && b.position == a.position && b.scale == a.scale
            && a.rotation.x == p.rotation.x && a.rotation.y == p.rotation.y
            && b.rotation.x == q.rotation.x && b.rotation.y == q.rotation.y
            && b.rotation.z == RadToDeg(a.rotation.z) + delta
            && a.opacity == Faded(p.opacity, e, effect == FadeIn) && b.opacity == Faded(q.opacity, e, effect == FadeIn)
  {
    FadeScaleRotate(p, custom, s, progress, elapsed, e, m, Radians);
    FadeScaleRotate(q, custom, s, progress, elapsed, e, m, Degrees);
  }

  /** waveToTarget tilts by `waveY * 0.2` radians live but `waveY * 0.2` degrees in the
      pages, so the two agree only where the wave offset is zero. */
  lemma WaveTiltDiffers(p: Pose, q: Pose, delta: real, custom: bool, s: EffectSettings,
                        progress: real, elapsed: real, e: real, m: MathLib)
    requires q.position == p.position && q.scale == p.scale
    requires q.rotation.z == RadToDeg(p.rotation.z) + delta
    ensures var a := ApplyEffect(p, WaveToTarget, custom, s, progress, elapsed, e, m, Radians);
            var b := ApplyEffect(q, WaveToTarget, custom, s, progress, elapsed, e, m, Degrees);
            var w := WaveOffset(s, progress, e, m);
            && b.position == a.position && b.scale == a.scale && b.opacity == q.opacity
            && b.rotation.z - (RadToDeg(a.rotation.z) + delta) == w * 0.2 - RadToDeg(w * 0.2)
            && (b.rotation.z == RadToDeg(a.rotation.z) + delta <==> w == 0.0)
  {
    var w := WaveOffset(s, progress, e, m);
    DegRadAdditive(p.rotation.z, w * 0.2);
    assert RadToDeg(w * 0.2) == (w * 0.2) * (180.0 / Pi);
    if w * 0.2 - RadToDeg(w * 0.2) == 0.0 {
      assert (w * 0.2) * (1.0 - 180.0 / Pi) == 0.0;
      assert 1.0 - 180.0 / Pi != 0.0;
    }
  }

  /** Rounding the opacity to two decimals and then scaling it by `e` in [0, 1] stays within
      half a hundredth of scaling the exact opacity. */
  lemma ScaledRoundingClose(o: real, e: real)
    requires 0.0 <= e <= 1.0
    ensures Abs(Fixed2(o) * e - o * e) <= 0.005
  {
    Fixed2Close(o);
    var d := Fixed2(o) - o;
    assert Fixed2(o) * e - o * e == d * e;
    if d >= 0.0 {
      NonNegProduct(d, e);
      NonNegProduct(d, 1.0 - e);
      assert d * e <= d;
    } else {
      NonNegProduct(-d, e);
      NonNegProduct(-d, 1.0 - e);
      assert (-d) * e <= -d;
    }
  }

  /** The page's data attributes carry the live configuration `c`: the same base pose except
      for the opacity, which is rounded to two decimals, and the same keyframes. */
  predicate Matches(a: PlaneAttributes, c: LayerConfig)
  {
    && a.originalPosition == c.originalPosition && a.originalRotation == c.originalRotation
    && a.originalScale == c.originalScale && a.originalOpacity == Fixed2(c.originalOpacity)
    && a.customStart == Some(c.customAnimation.start) && a.customEnd == Some(c.customAnimation.end)
  }

  /** Timer `t` replays configuration `c`: the same flag, effect and settings. */
  predicate Replays(t: Timer, c: LayerConfig)
  {
    t.enableCustom == c.enableCustomAnimation && t.specialEffect == c.specialEffect
    && t.settings == c.settings
  }

  /** A serialized layer and the interval started for it carry the layer's configuration. */
  lemma PlaneOfMatches(id: int, s: LayerState, k: nat, start: real)
    ensures Matches(PlaneOf(id, s), ConfigOf(s))
    ensures Replays(TimerFor(k, PlaneOf(id, s), start), ConfigOf(s))
    ensures TimerFor(k, PlaneOf(id, s), start).handle
            == Handle(start, s.animationDuration, s.animationSpeed, s.loopAnimation)
  {
  }

  /** The controls page's blended pose against the live one at the same eased progress:
      same position and scale, x and y rotations in degrees, z rotation in degrees plus the
      base z rotation when the custom animation is on; the opacity is the same with the
      custom animation on and the rounded one otherwise. */
  lemma ControlsBlendAgrees(c: LayerConfig, a: PlaneAttributes, e: real)
    requires Matches(a, c)
    ensures var custom := c.enableCustomAnimation;
            var p := if custom then LiveBlend(BasePose(c), c.customAnimation, e) else BasePose(c);
            var q := if custom then ControlsBlend(OriginalPose(a), c.customAnimation.start, c.customAnimation.end, e)
                     else OriginalPose(a);
            var delta := if custom then RadToDeg(c.originalRotation.z) else 0.0;
            && q.position == p.position && q.scale == p.scale
            && q.rotation.x == RadToDeg(p.rotation.x) && q.rotation.y == RadToDeg(p.rotation.y)
            && q.rotation.z == RadToDeg(p.rotation.z) + delta
            && q.opacity == (if custom then p.opacity else Fixed2(p.opacity))
  {
    var ca := c.customAnimation;
    DegRadInverse(Lerp(ca.start.rotation, ca.end.rotation, e), 0.0);
  }

  /** Both frames of a running animation, written as the effect `switch` applied to their
      blended poses at the same progress, and how those blended poses relate. */
  lemma ControlsFrameSplit(c: LayerConfig, a: PlaneAttributes, t: Timer, now: real, m: MathLib)
    returns (p: Pose, q: Pose, progress: real, elapsed: real, e: real)
    requires Matches(a, c) && Replays(t, c)
    requires t.handle.duration > 0.0
    requires Elapsed(t.handle, now) >= 0.0 && (t.handle.loop || Elapsed(t.handle, now) <= t.handle.duration)
    ensures 0.0 <= e <= 1.0
    ensures LivePose(c, t.handle, now, m)
            == ApplyEffect(p, ParseEffect(c.specialEffect), c.enableCustomAnimation, c.settings,
                           progress, elapsed, e, m, Radians)
    ensures ControlsFrame(a, t, now, m)
            == Some(ApplyEffect(q, ParseEffect(c.specialEffect), c.enableCustomAnimation, c.settings,
                                progress, elapsed, e, m, Degrees))
    ensures q.position == p.position && q.scale == p.scale
    ensures q.rotation.z == RadToDeg(p.rotation.z)
                            + (if c.enableCustomAnimation then RadToDeg(c.originalRotation.z) else 0.0)
    ensures q.rotation.x == RadToDeg(p.rotation.x) && q.rotation.y == RadToDeg(p.rotation.y)
    ensures q.opacity == (if c.enableCustomAnimation then p.opacity else Fixed2(p.opacity))
  {
    var h := t.handle;
    elapsed := Elapsed(h, now);
    LiveProgressRange(elapsed, h.duration, h.loop);
    progress := LiveProgress(elapsed, h.duration, h.loop);
    assert progress == JsMod(elapsed, h.duration) / h.duration;
    e := EaseInOut(progress);
    EaseInOutRange(progress);
    var custom := c.enableCustomAnimation;
    p := if custom then LiveBlend(BasePose(c), c.customAnimation, e) else BasePose(c);
    q := if custom then ControlsBlend(OriginalPose(a), c.customAnimation.start, c.customAnimation.end, e)
         else OriginalPose(a);
    ControlsBlendAgrees(c, a, e);
  }

  /** The same comparison for the whole frame of a running animation, for every effect
      except waveToTarget. */
  lemma ControlsPoseAgrees(c: LayerConfig, a: PlaneAttributes, t: Timer, now: real, m: MathLib)
    requires Matches(a, c) && Replays(t, c)
    requires ParseEffect(c.specialEffect) != WaveToTarget
    requires t.handle.duration > 0.0
    requires Elapsed(t.handle, now) >= 0.0 && (t.handle.loop || Elapsed(t.handle, now) <= t.handle.duration)
    ensures ControlsFrame(a, t, now, m).Some?
    ensures ControlsFrame(a, t, now, m).value.position == LivePose(c, t.handle, now, m).position
    ensures ControlsFrame(a, t, now, m).value.scale == LivePose(c, t.handle, now, m).scale
    ensures var live := LivePose(c, t.handle, now, m).rotation;
            var delta := if c.enableCustomAnimation then RadToDeg(c.originalRotation.z) else 0.0;
            ControlsFrame(a, t, now, m).value.rotation
            == Vec3(RadToDeg(live.x), RadToDeg(live.y), RadToDeg(live.z) + delta)
    ensures c.enableCustomAnimation ==>
              ControlsFrame(a, t, now, m).value.opacity == LivePose(c, t.handle, now, m).opacity
  {
    var custom := c.enableCustomAnimation;
    var effect := ParseEffect(c.specialEffect);
    var delta := if custom then RadToDeg(c.originalRotation.z) else 0.0;
    var p, q, progress, elapsed, e := ControlsFrameSplit(c, a, t, now, m);
    var live := ApplyEffect(p, effect, custom, c.settings, progress, elapsed, e, m, Radians);
    var page := ApplyEffect(q, effect, custom, c.settings, progress, elapsed, e, m, Degrees);
    UnitsAgree(p, q, delta, effect, custom, c.settings, progress, elapsed, e, m);
  }

  /** Without the custom animation the opacity the controls page writes is within half a
      hundredth of the live one. */
  lemma ControlsOpacityClose(c: LayerConfig, a: PlaneAttributes, t: Timer, now: real, m: MathLib)
    requires Matches(a, c) && Replays(t, c) && !c.enableCustomAnimation
    requires t.handle.duration > 0.0
    requires Elapsed(t.handle, now) >= 0.0 && (t.handle.loop || Elapsed(t.handle, now) <= t.handle.duration)
    ensures ControlsFrame(a, t, now, m).Some?
    ensures Abs(ControlsFrame(a, t, now, m).value.opacity - LivePose(c, t.handle, now, m).opacity) <= 0.005
  {
    var o, r, e, liveOpacity, pageOpacity := ControlsOpacities(c, a, t, now, m);
    OpacityGap(o, r, e, ParseEffect(c.specialEffect) == FadeIn, liveOpacity, pageOpacity);
  }

  /** The two opacities of a running animation in terms of the eased progress `e` and the
      opacities `o` and `r` the live and the page blends start the effect from. */
  lemma ControlsOpacities(c: LayerConfig, a: PlaneAttributes, t: Timer, now: real, m: MathLib)
    returns (o: real, r: real, e: real, liveOpacity: real, pageOpacity: real)
    requires Matches(a, c) && Replays(t, c) && !c.enableCustomAnimation
    requires t.handle.duration > 0.0
    requires Elapsed(t.handle, now) >= 0.0 && (t.handle.loop || Elapsed(t.handle, now) <= t.handle.duration)
    ensures ControlsFrame(a, t, now, m).Some?
    ensures pageOpacity == ControlsFrame(a, t, now, m).value.opacity
    ensures liveOpacity == LivePose(c, t.handle, now, m).opacity
    ensures 0.0 <= e <= 1.0
    ensures var fade := ParseEffect(c.specialEffect) == FadeIn;
            && r == Fixed2(o)
            && liveOpacity == Faded(o, e, fade) && pageOpacity == Faded(r, e, fade)
  {
    var effect := ParseEffect(c.specialEffect);
    var p, q, progress, elapsed, e' := ControlsFrameSplit(c, a, t, now, m);
    e := e';
    o, r := p.opacity, q.opacity;
    liveOpacity := EffectOpacity(p, effect, false, c.settings, progress, elapsed, e, m, Radians);
    pageOpacity := EffectOpacity(q, effect, false, c.settings, progress, elapsed, e, m, Degrees);
  }

  /** The opacity `o` scaled by the eased progress `e` when `fade` holds. */
  function Faded(o: real, e: real, fade: bool): real
  {
    if fade then o * e else o
  }

  /** Only fadeIn changes the opacity: it scales it by the eased progress. */
  lemma EffectOpacity(p: Pose, effect: Effect, custom: bool, s: EffectSettings, progress: real,
                      elapsed: real, e: real, m: MathLib, unit: AngleUnit) returns (o: real)
    ensures o == ApplyEffect(p, effect, custom, s, progress, elapsed, e, m, unit).opacity
    ensures o == Faded(p.opacity, e, effect == FadeIn)
  {
    o := ApplyEffect(p, effect, custom, s, progress, elapsed, e, m, unit).opacity;
  }

  /** Starting from the opacity rounded to two decimals, and scaling it by the eased
      progress for fadeIn only, stays within half a hundredth of starting from the exact
      one. */
  lemma OpacityGap(o: real, r: real, e: real, fade: bool, liveOpacity: real, pageOpacity: real)
    requires 0.0 <= e <= 1.0
    requires r == Fixed2(o)
    requires liveOpacity == Faded(o, e, fade) && pageOpacity == Faded(r, e, fade)
    ensures Abs(pageOpacity - liveOpacity) <= 0.005
  {
    if fade {
      ScaledRoundingClose(o, e);
    } else {
      Fixed2Close(o);
    }
  }

  /** A qualifying layer exported to the controls page and replayed from the same moment as
      the live handle: while the animation runs, the page writes the live position and
      scale, the live x and y rotations in degrees, and the live z rotation in degrees plus
      the layer's own base z rotation when the custom animation is on (the live blend
      replaces z, the page adds to it). The opacity is the live one with the custom
      animation on, and within half a hundredth of it otherwise, because the page starts
      from the two-decimal `data-original-opacity`. Every effect except waveToTarget. */
  lemma ControlsAgreesWithLive(id: int, s: LayerState, k: nat, start: real, now: real, m: MathLib)
    requires ParseEffect(s.specialEffect) != WaveToTarget
    requires s.animationDuration > 0.0
    requires var h := Handle(start, s.animationDuration, s.animationSpeed, s.loopAnimation);
             Elapsed(h, now) >= 0.0 && (h.loop || Elapsed(h, now) <= h.duration)
    ensures var t := TimerFor(k, PlaneOf(id, s), start);
            var live := LivePose(ConfigOf(s), t.handle, now, m);
            var frame := ControlsFrame(PlaneOf(id, s), t, now, m);
            var delta := if s.enableCustomAnimation then RadToDeg(s.originalRotation.z) else 0.0;
            && frame.Some?
            && frame.value.position == live.position && frame.value.scale == live.scale
            && frame.value.rotation == Vec3(RadToDeg(live.rotation.x), RadToDeg(live.rotation.y),
                                            RadToDeg(live.rotation.z) + delta)
            && (s.enableCustomAnimation ==> frame.value.opacity == live.opacity)
            && Abs(frame.value.opacity - live.opacity) <= 0.005
  {
    var c, a := ConfigOf(s), PlaneOf(id, s);
    var t := TimerFor(k, a, start);
    PlaneOfMatches(id, s, k, start);
    ControlsPoseAgrees(c, a, t, now, m);
    if !s.enableCustomAnimation {
      ControlsOpacityClose(c, a, t, now, m);
    }
  }

  /** Past the end of a non-looping animation the live handle keeps drawing the pose pinned
      at progress 1, while both exported pages clear their interval and write nothing, so
      their planes keep the last pose drawn before the end. */
  lemma PagesClearWhereLivePins(c: LayerConfig, a: PlaneAttributes, t: Timer, shown: Pose,
                                now: real, m: MathLib)
    requires !t.handle.loop && Elapsed(t.handle, now) > t.handle.duration
    ensures LiveProgress(Elapsed(t.handle, now), t.handle.duration, false) == 1.0
    ensures ControlsFrame(a, t, now, m).None?
    ensures LegacyFrame(shown, a, t, now, m).None?
  {
  }

  /** The legacy blend against the live one: same position, scale and opacity, and the z
      rotation in degrees with nothing added; the x and y rotations are the displayed ones. */
  lemma LegacyBlendAgrees(c: LayerConfig, a: PlaneAttributes, shown: Pose, e: real)
    requires Matches(a, c)
    ensures var p := LiveBlend(BasePose(c), c.customAnimation, e);
            var q := LegacyBlend(shown.(opacity := 1.0), c.customAnimation.start, c.customAnimation.end, e);
            && q.position == p.position && q.scale == p.scale && q.opacity == p.opacity
            && q.rotation.z == RadToDeg(p.rotation.z)
            && q.rotation.x == shown.rotation.x && q.rotation.y == shown.rotation.y
            && p.rotation.x == c.originalRotation.x && p.rotation.y == c.originalRotation.y
  {
    var ca := c.customAnimation;
    DegRadInverse(Lerp(ca.start.rotation, ca.end.rotation, e), 0.0);
  }

  /** The legacy page with the custom animation on: it writes the live position, scale,
      opacity and z rotation (in degrees; unlike the controls page it does not add the base
      z rotation), and keeps the displayed x and y rotations. Every effect except
      waveToTarget. */
  lemma LegacyPoseAgrees(c: LayerConfig, a: PlaneAttributes, t: Timer, shown: Pose, now: real, m: MathLib)
    requires Matches(a, c) && Replays(t, c) && c.enableCustomAnimation
    requires ParseEffect(c.specialEffect) != WaveToTarget
    requires t.handle.loop || Elapsed(t.handle, now) <= t.handle.duration
    ensures var live := LivePose(c, t.handle, now, m);
            var frame := LegacyFrame(shown, a, t, now, m);
            && frame.Some?
            && frame.value.position == live.position && frame.value.scale == live.scale
            && frame.value.opacity == live.opacity
            && frame.value.rotation == Vec3(shown.rotation.x, shown.rotation.y, RadToDeg(live.rotation.z))
            && live.rotation.x == c.originalRotation.x && live.rotation.y == c.originalRotation.y
  {
    var h := t.handle;
    var elapsed := Elapsed(h, now);
    var progress := LiveProgress(elapsed, h.duration, h.loop);
    assert progress == JsMod(elapsed, h.duration) / h.duration;
    var e := EaseInOut(progress);
    var p := LiveBlend(BasePose(c), c.customAnimation, e);
    var q := LegacyBlend(shown.(opacity := 1.0), c.customAnimation.start, c.customAnimation.end, e);
    LegacyBlendAgrees(c, a, shown, e);
    UnitsAgree(p, q, 0.0, ParseEffect(c.specialEffect), true, c.settings, progress, elapsed, e, m);
  }

  /** A layer with the custom animation on, exported to the legacy page, on a plane whose x
      and y rotations are still the ones it loaded with (no legacy tick changes them): the
      frame has the live position, scale, opacity and z rotation in degrees, and x and y
      rotations within half a hundredth of the live ones in degrees. */
  lemma LegacyAgreesWithLiveCustom(id: int, s: LayerState, k: nat, start: real, now: real,
                                   shown: Pose, m: MathLib)
    requires s.enableCustomAnimation
    requires ParseEffect(s.specialEffect) != WaveToTarget
    requires var h := Handle(start, s.animationDuration, s.animationSpeed, s.loopAnimation);
             h.loop || Elapsed(h, now) <= h.duration
    requires shown.rotation.x == PlaneOf(id, s).rotation.x && shown.rotation.y == PlaneOf(id, s).rotation.y
    ensures var t := TimerFor(k, PlaneOf(id, s), start);
            var live := LivePose(ConfigOf(s), t.handle, now, m);
            var frame := LegacyFrame(shown, PlaneOf(id, s), t, now, m);
            && frame.Some?
            && frame.value.position == live.position && frame.value.scale == live.scale
            && frame.value.opacity == live.opacity
            && frame.value.rotation.z == RadToDeg(live.rotation.z)
            && Abs(frame.value.rotation.x - RadToDeg(live.rotation.x)) <= 0.005
            && Abs(frame.value.rotation.y - RadToDeg(live.rotation.y)) <= 0.005
  {
    PlaneOfMatches(id, s, k, start);
    DisplayedNearOriginal(id, s);
    LegacyPoseAgrees(ConfigOf(s), PlaneOf(id, s), TimerFor(k, PlaneOf(id, s), start), shown, now, m);
  }
}
