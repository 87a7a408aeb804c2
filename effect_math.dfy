/** The arithmetic both animation evaluators share: the quadratic ease, the elastic curve,
    the linear blend, the per-effect terms and the effect catalogue itself. The live editor
    adds angles in radians and the exported pages in degrees; `AngleUnit` selects which. */
module EffectMath {
  import opened JsMath
  import opened LayerTypes

  /** The quadratic ease-in-out curve. */
  function EaseInOut(t: real): real
  {
    if t < 0.5 then 2.0 * t * t else -1.0 + (4.0 - 2.0 * t) * t
  }

  /** Strictly inside the first half the ease lies in (0, 1/2). */
  lemma EaseLowHalf(t: real)
    requires 0.0 < t < 0.5
    ensures 0.0 < EaseInOut(t) < 0.5
  {
    calc {
      0.0;
    <
      2.0 * t * t;
    ==
      EaseInOut(t);
    }
    calc {
      EaseInOut(t);
    ==
      2.0 * t * t;
    < { MulStrict(t, 0.5, t); }
      0.5;
    }
  }

  /** On the second half, written as `t = 1 - u`, the ease is `1 - 2 u^2`, in [1/2, 1]. */
  lemma EaseHighHalf(u: real)
    requires 0.0 <= u <= 0.5
    ensures EaseInOut(1.0 - u) == 1.0 - 2.0 * (u * u)
    ensures 0.5 <= EaseInOut(1.0 - u) <= 1.0
  {
    calc {
      EaseInOut(1.0 - u);
    ==
      1.0 - 2.0 * (u * u);
    <=
      1.0;
    }
    if u > 0.0 {
      calc {
        EaseInOut(1.0 - u);
      ==
        1.0 - 2.0 * (u * u);
      >= { MulWeak(u, 0.5, u); }
        0.5;
      }
    }
  }

  /** Strictly before the end the ease stays below 1. */
  lemma EaseNearEnd(u: real)
    requires 0.0 < u <= 0.5
    ensures EaseInOut(1.0 - u) < 1.0
  {
    calc {
      EaseInOut(1.0 - u);
    ==
      1.0 - 2.0 * (u * u);
    <
      1.0;
    }
  }

  /** The ease fixes 0, 1/2 and 1, maps [0, 1] into [0, 1], and stays below 1 before the end. */
  lemma EaseInOutRange(t: real)
    requires 0.0 <= t <= 1.0
    ensures 0.0 <= EaseInOut(t) <= 1.0
    ensures t < 1.0 ==> EaseInOut(t) < 1.0
    ensures t < 0.5 <==> EaseInOut(t) < 0.5
    ensures t == 0.0 ==> EaseInOut(t) == 0.0
    ensures t == 0.5 ==> EaseInOut(t) == 0.5
    ensures t == 1.0 ==> EaseInOut(t) == 1.0
  {
    if 0.0 < t < 0.5 {
      EaseLowHalf(t);
    } else if 0.5 <= t {
      EaseHighHalf(1.0 - t);
      if t < 1.0 {
        EaseNearEnd(1.0 - t);
      }
    }
  }

  /** The ease is symmetric about the midpoint. */
  lemma EaseInOutSymmetric(t: real)
    requires 0.0 <= t <= 1.0
    ensures EaseInOut(1.0 - t) == 1.0 - EaseInOut(t)
  {
    if t < 0.5 {
      calc {
        EaseInOut(1.0 - t);
      == { EaseHighHalf(t); }
        1.0 - 2.0 * (t * t);
      ==
        1.0 - EaseInOut(t);
      }
    } else if t > 0.5 {
      calc {
        EaseInOut(1.0 - t);
      ==
        2.0 * (1.0 - t) * (1.0 - t);
      == { EaseHighHalf(1.0 - t); }
        1.0 - EaseInOut(t);
      }
    }
  }

  /** `x * x <= y * y` for `0 < x <= y`, one factor at a time. */
  lemma SquareMonotone(x: real, y: real)
    requires 0.0 < x <= y
    ensures 2.0 * (x * x) <= 2.0 * (y * y)
  {
    calc {
      2.0 * (x * x);
    <= { MulWeak(x, y, x); }
      2.0 * (y * x);
    <= { MulWeak(x, y, y); }
      2.0 * (y * y);
    }
  }

  /** The ease never decreases on [0, 1]. */
  lemma EaseInOutMonotone(s: real, t: real)
    requires 0.0 <= s <= t <= 1.0
    ensures EaseInOut(s) <= EaseInOut(t)
  {
    if t < 0.5 {
      if s > 0.0 {
        calc {
          EaseInOut(s);
        ==
          2.0 * (s * s);
        <= { SquareMonotone(s, t); }
          2.0 * (t * t);
        ==
          EaseInOut(t);
        }
      }
    } else if s >= 0.5 {
      var a, b := 1.0 - t, 1.0 - s;
      if a > 0.0 {
        calc {
          EaseInOut(s);
          { assert s == 1.0 - b; }
          EaseInOut(1.0 - b);
        == { EaseHighHalf(b); }
          1.0 - 2.0 * (b * b);
        <= { SquareMonotone(a, b); }
          1.0 - 2.0 * (a * a);
        == { EaseHighHalf(a); }
          EaseInOut(1.0 - a);
          { assert 1.0 - a == t; }
          EaseInOut(t);
        }
      } else {
        EaseInOutRange(s);
        EaseInOutRange(t);
      }
    } else {
      EaseInOutRange(s);
      EaseInOutRange(t);
    }
  }

  /** The "elastic-out" curve used by elasticMove; exact at both ends by its own guards. */
  function ElasticEase(t: real, m: MathLib): (r: real)
    ensures t == 0.0 ==> r == 0.0
    ensures t == 1.0 ==> r == 1.0
  {
    if t == 0.0 then 0.0
    else if t == 1.0 then 1.0
    else
      var c4 := (2.0 * Pi) / 3.0;
      if t < 0.5 then -(m.pow(2.0, 20.0 * t - 10.0) * m.sin((20.0 * t - 11.125) * c4)) / 2.0
      else (m.pow(2.0, -20.0 * t + 10.0) * m.sin((20.0 * t - 11.125) * c4)) / 2.0 + 1.0
  }

  /** `a + (b - a) * t`, the keyframe blend of one channel. */
  function Lerp(a: real, b: real, t: real): real
  {
    a + (b - a) * t
  }

  lemma NonNegProduct(x: real, y: real)
    requires x >= 0.0 && y >= 0.0
    ensures x * y >= 0.0
  {}

  /** The blend starts at `a`, ends at `b`, and for `0 <= t <= 1` stays between them. */
  lemma LerpBounds(a: real, b: real, t: real)
    requires 0.0 <= t <= 1.0
    ensures Lerp(a, b, 0.0) == a && Lerp(a, b, 1.0) == b
    ensures a <= b ==> a <= Lerp(a, b, t) <= b
    ensures b <= a ==> b <= Lerp(a, b, t) <= a
  {
    if a <= b {
      NonNegProduct(b - a, t);
      NonNegProduct(b - a, 1.0 - t);
    } else {
      NonNegProduct(a - b, t);
      NonNegProduct(a - b, 1.0 - t);
    }
  }

  /** Whether an evaluator adds angles in radians (the live mesh) or degrees (the pages). */
  datatype AngleUnit = Radians | Degrees

  /** A degree quantity added to a rotation of the given unit: `deg * Math.PI / 180` for the
      live mesh, the degrees themselves for the pages. */
  function Turn(unit: AngleUnit, deg: real): real
  {
    match unit
    case Radians => DegToRad(deg)
    case Degrees => deg
  }

  /** A translation of the pose's x and y. */
  function MoveBy(p: Pose, dx: real, dy: real): Pose
  {
    p.(position := Vec3(p.position.x + dx, p.position.y + dy, p.position.z))
  }

  /** A rotation added to the pose's z rotation. */
  function TurnZ(p: Pose, da: real): Pose
  {
    p.(rotation := p.rotation.(z := p.rotation.z + da))
  }

  /** All three scale factors multiplied by `f`. */
  function ScaleBy(p: Pose, f: real): Pose
  {
    p.(scale := Vec3(p.scale.x * f, p.scale.y * f, p.scale.z * f))
  }

  // The per-effect terms, each as the source computes it from the raw progress, the eased
  // progress `e`, the elapsed seconds and the layer's settings.

  /** swingToTarget: a swing in degrees whose amplitude decays with the ease. */
  function SwingAngle(s: EffectSettings, progress: real, e: real, m: MathLib): real
  {
    m.sin(progress * s.swingFreq * Pi) * ((1.0 - e) * s.swingRange)
  }

  /** zigzagToTarget: a sideways offset whose amplitude decays with the ease. */
  function ZigzagOffset(s: EffectSettings, progress: real, e: real, m: MathLib): real
  {
    m.sin(progress * s.zigzagFreq * Pi) * ((1.0 - e) * s.zigzagAmp)
  }

  /** pendulumMove: a degree angle driven by the elapsed seconds, not by the progress. */
  function PendulumAngle(s: EffectSettings, elapsed: real, m: MathLib): real
  {
    m.sin(elapsed * s.pendulumSpeed) * s.pendulumRange
  }

  /** waveToTarget: a vertical wave whose amplitude decays with the ease. */
  function WaveOffset(s: EffectSettings, progress: real, e: real, m: MathLib): real
  {
    m.sin(progress * s.waveFreq * Pi) * s.waveAmp * (1.0 - e)
  }

  /** elasticMove: the scale wobble, driven by the raw progress. */
  function ElasticScale(progress: real, m: MathLib): real
  {
    1.0 + m.sin(progress * 10.0) * 0.1 * (1.0 - progress)
  }

  /** The slide effects: the distance still to travel. */
  function SlideOffset(s: EffectSettings, e: real): real
  {
    s.slideDistance * (1.0 - e)
  }

  /** bounce: a non-negative lift. */
  function BounceLift(s: EffectSettings, e: real, m: MathLib): real
  {
    Abs(m.sin(e * Pi * s.bounceFreq)) * s.bounceHeight
  }

  /** spiral: the shrinking radius and the swept angle (radians for `Math.cos`/`Math.sin`). */
  function SpiralRadiusAt(s: EffectSettings, e: real): real
  {
    s.spiralRadius * (1.0 - e)
  }

  function SpiralAngle(s: EffectSettings, e: real): real
  {
    e * Pi * s.spiralRotations
  }

  /** rotate: `eased * Math.PI * 2 * rotateCycles` radians live, `eased * 360 * rotateCycles`
      degrees in the pages. */
  function RotateTurn(unit: AngleUnit, s: EffectSettings, e: real): real
  {
    match unit
    case Radians => e * Pi * 2.0 * s.rotateCycles
    case Degrees => e * 360.0 * s.rotateCycles
  }

  /** What an effect's `case` does before its `if (!enableCustom)` block. */
  function EffectCore(p: Pose, effect: Effect, s: EffectSettings, progress: real, elapsed: real,
                      e: real, m: MathLib, unit: AngleUnit): Pose
  {
    match effect
    case SwingToTarget => TurnZ(p, Turn(unit, SwingAngle(s, progress, e, m)))
    case ZigzagToTarget => MoveBy(p, ZigzagOffset(s, progress, e, m), 0.0)
    case PendulumMove => TurnZ(p, Turn(unit, PendulumAngle(s, elapsed, m)))
    case WaveToTarget =>
      var w := WaveOffset(s, progress, e, m);
      TurnZ(MoveBy(p, 0.0, w), w * 0.2)
    case ElasticMove => ScaleBy(p, ElasticScale(progress, m))
    case SlideDown => MoveBy(p, 0.0, SlideOffset(s, e))
    case SlideUp => MoveBy(p, 0.0, -SlideOffset(s, e))
    case SlideLeft => MoveBy(p, SlideOffset(s, e), 0.0)
    case SlideRight => MoveBy(p, -SlideOffset(s, e), 0.0)
    case FadeIn => p.(opacity := p.opacity * e)
    case ScaleIn => ScaleBy(p, e)
    case Rotate => TurnZ(p, RotateTurn(unit, s, e))
    case Bounce => MoveBy(p, 0.0, BounceLift(s, e, m))
    case Spiral =>
      var r, a := SpiralRadiusAt(s, e), SpiralAngle(s, e);
      MoveBy(p, r * m.cos(a), r * m.sin(a))
    case NoEffect => p
    case UnknownEffect => p
  }

  /** The effects whose `case` ends in an `if (!enableCustom)` block that moves toward a target. */
  predicate HasTarget(effect: Effect)
  {
    effect == SwingToTarget || effect == ZigzagToTarget || effect == WaveToTarget || effect == ElasticMove
  }

  /** The displacement toward a target that swingToTarget, zigzagToTarget, waveToTarget and
      elasticMove add inside their `if (!enableCustom)` blocks; nothing for the other effects. */
  function TargetDisplacement(effect: Effect, s: EffectSettings, progress: real, e: real, m: MathLib): (real, real)
  {
    match effect
    case SwingToTarget => (s.swingTargetX * e, 0.0)
    case ZigzagToTarget => (s.zigzagTargetX * e, s.zigzagTargetY * e)
    case WaveToTarget => (s.waveTargetX * e, s.waveTargetY * e)
    case ElasticMove => (3.0 * ElasticEase(progress, m), 3.0 * ElasticEase(progress, m))
    case _ => (0.0, 0.0)
  }

  /** The effect `switch` applied to pose `p`: the effect's own terms, then the target
      displacement when the custom animation is off. */
  function ApplyEffect(p: Pose, effect: Effect, custom: bool, s: EffectSettings, progress: real,
                       elapsed: real, e: real, m: MathLib, unit: AngleUnit): Pose
  {
    var q := EffectCore(p, effect, s, progress, elapsed, e, m, unit);
    if custom || !HasTarget(effect) then q
    else
      var d := TargetDisplacement(effect, s, progress, e, m);
      MoveBy(q, d.0, d.1)
  }

  /** With no effect, or a name that matches no `case`, nothing is added to the pose. */
  lemma NoEffectIsIdentity(p: Pose, effect: Effect, custom: bool, s: EffectSettings, progress: real,
                           elapsed: real, e: real, m: MathLib, unit: AngleUnit)
    requires effect == NoEffect || effect == UnknownEffect
    ensures ApplyEffect(p, effect, custom, s, progress, elapsed, e, m, unit) == p
  {
    assert TargetDisplacement(effect, s, progress, e, m) == (0.0, 0.0);
    assert MoveBy(p, 0.0, 0.0) == p;
  }

  /** Only pendulumMove reads the elapsed seconds. */
  lemma ElapsedOnlyForPendulum(p: Pose, effect: Effect, custom: bool, s: EffectSettings, progress: real,
                               elapsed1: real, elapsed2: real, e: real, m: MathLib, unit: AngleUnit)
    requires effect != PendulumMove
    ensures ApplyEffect(p, effect, custom, s, progress, elapsed1, e, m, unit)
            == ApplyEffect(p, effect, custom, s, progress, elapsed2, e, m, unit)
  {
  }

  /** The custom-animation flag changes what an effect adds by exactly the target
      displacement: swingToTarget, zigzagToTarget, waveToTarget and elasticMove move toward
      their target only with the flag off, every other effect ignores the flag, and rotation,
      scale and opacity never depend on it. */
  lemma TargetGuard(p: Pose, effect: Effect, s: EffectSettings, progress: real,
                    elapsed: real, e: real, m: MathLib, unit: AngleUnit)
    ensures var on := ApplyEffect(p, effect, true, s, progress, elapsed, e, m, unit);
            var off := ApplyEffect(p, effect, false, s, progress, elapsed, e, m, unit);
            var d := TargetDisplacement(effect, s, progress, e, m);
            && off.position == Vec3(on.position.x + d.0, on.position.y + d.1, on.position.z)
            && off.rotation == on.rotation && off.scale == on.scale && off.opacity == on.opacity
            && (effect !in {SwingToTarget, ZigzagToTarget, WaveToTarget, ElasticMove} ==> on == off)
            && (effect == SwingToTarget ==> d.0 == s.swingTargetX * e && d.1 == 0.0)
            && (effect == ZigzagToTarget ==> d.0 == s.zigzagTargetX * e && d.1 == s.zigzagTargetY * e)
            && (effect == WaveToTarget ==> d.0 == s.waveTargetX * e && d.1 == s.waveTargetY * e)
            && (effect == ElasticMove ==> d.0 == d.1 == 3.0 * ElasticEase(progress, m))
  {
    var q := EffectCore(p, effect, s, progress, elapsed, e, m, unit);
    var d := TargetDisplacement(effect, s, progress, e, m);
    assert ApplyEffect(p, effect, false, s, progress, elapsed, e, m, unit) == MoveBy(q, d.0, d.1) by {
      if !HasTarget(effect) {
        assert MoveBy(q, 0.0, 0.0) == q;
      }
    }
  }

  /** The slide effects add +/- slideDistance * (1 - eased) on one axis: the full distance
      at eased 0, nothing at eased 1; slideUp mirrors slideDown and slideRight mirrors
      slideLeft; none of them touches the rotation or depends on the custom flag. */
  lemma SlideOffsets(p: Pose, custom: bool, s: EffectSettings, progress: real, elapsed: real,
                     e: real, m: MathLib, unit: AngleUnit)
    ensures var d := s.slideDistance;
            var down := ApplyEffect(p, SlideDown, custom, s, progress, elapsed, e, m, unit);
            var up := ApplyEffect(p, SlideUp, custom, s, progress, elapsed, e, m, unit);
            var left := ApplyEffect(p, SlideLeft, custom, s, progress, elapsed, e, m, unit);
            var right := ApplyEffect(p, SlideRight, custom, s, progress, elapsed, e, m, unit);
            && down == p.(position := Vec3(p.position.x, p.position.y + d * (1.0 - e), p.position.z))
            && up == p.(position := Vec3(p.position.x, p.position.y - d * (1.0 - e), p.position.z))
            && left == p.(position := Vec3(p.position.x + d * (1.0 - e), p.position.y, p.position.z))
            && right == p.(position := Vec3(p.position.x - d * (1.0 - e), p.position.y, p.position.z))
            && (e == 0.0 ==> down.position.y == p.position.y + d && left.position.x == p.position.x + d)
            && (e == 1.0 ==> down == up == left == right == p)
  {
  }

  /** fadeIn scales the opacity by eased and scaleIn all three scale factors (both the
      identity at eased 1); rotate adds eased * 2 * pi * rotateCycles radians live, which is
      eased * 360 * rotateCycles degrees. */
  lemma FadeScaleRotate(p: Pose, custom: bool, s: EffectSettings, progress: real, elapsed: real,
                        e: real, m: MathLib, unit: AngleUnit)
    ensures var fade := ApplyEffect(p, FadeIn, custom, s, progress, elapsed, e, m, unit);
            var grow := ApplyEffect(p, ScaleIn, custom, s, progress, elapsed, e, m, unit);
            var spin := ApplyEffect(p, Rotate, custom, s, progress, elapsed, e, m, unit);
            && fade == p.(opacity := p.opacity * e)
            && grow == p.(scale := Vec3(p.scale.x * e, p.scale.y * e, p.scale.z * e))
            && spin == p.(rotation := p.rotation.(z := p.rotation.z + RotateTurn(unit, s, e)))
            && (e == 1.0 ==> fade == p && grow == p)
            && RotateTurn(Radians, s, e) == DegToRad(RotateTurn(Degrees, s, e))
  {
    assert MoveBy(p.(opacity := p.opacity * e), 0.0, 0.0) == p.(opacity := p.opacity * e);
    assert MoveBy(ScaleBy(p, e), 0.0, 0.0) == ScaleBy(p, e);
    var q := TurnZ(p, RotateTurn(unit, s, e));
    assert MoveBy(q, 0.0, 0.0) == q;
  }

  /** The effect `switch` as the evaluators run it, on the `case` label `effect` that the
      layer's effect name selects: the pose held in the `final*` variables starts at `p` and
      the selected `case` adds to it in place; the result is the pose it ends at. The cases
      are grouped in three methods, by kind, so each is proved on its own. */
  method EffectSwitch(p: Pose, effect: Effect, enableCustom: bool, settings: EffectSettings,
                      progress: real, elapsed: real, easedProgress: real, m: MathLib, unit: AngleUnit)
    returns (r: Pose)
    ensures r == ApplyEffect(p, effect, enableCustom, settings, progress, elapsed,
                             easedProgress, m, unit)
  {
    r := p;
    if effect == NoEffect || effect == UnknownEffect {
      NoEffectIsIdentity(p, effect, enableCustom, settings, progress, elapsed, easedProgress, m, unit);
    } else if effect.SwingToTarget? || effect.ZigzagToTarget? || effect.PendulumMove?
              || effect.WaveToTarget? || effect.ElasticMove? {
      r := DecayingCase(p, effect, enableCustom, settings, progress, elapsed, easedProgress, m, unit);
    } else if effect.SlideDown? || effect.SlideUp? || effect.SlideLeft? || effect.SlideRight? {
      r := SlideCase(p, effect, enableCustom, settings, progress, elapsed, easedProgress, m, unit);
    } else {
      r := ShapeCase(p, effect, enableCustom, settings, progress, elapsed, easedProgress, m, unit);
    }
  }

  /** The `case`s whose motion decays with the ease or follows the raw progress or elapsed
      time: swingToTarget, zigzagToTarget, pendulumMove, waveToTarget and elasticMove. */
  method DecayingCase(p: Pose, effect: Effect, enableCustom: bool, settings: EffectSettings,
                      progress: real, elapsed: real, easedProgress: real, m: MathLib, unit: AngleUnit)
    returns (r: Pose)
    requires effect.SwingToTarget? || effect.ZigzagToTarget? || effect.PendulumMove?
             || effect.WaveToTarget? || effect.ElasticMove?
    ensures r == ApplyEffect(p, effect, enableCustom, settings, progress, elapsed,
                             easedProgress, m, unit)
  {
    r := p;
    match effect
    case SwingToTarget =>
      var swingAngle := SwingAngle(settings, progress, easedProgress, m);
      r := TurnZ(r, Turn(unit, swingAngle));
      if !enableCustom {
        r := MoveBy(r, settings.swingTargetX * easedProgress, 0.0);
      }
    case ZigzagToTarget =>
      var zigzagOffset := ZigzagOffset(settings, progress, easedProgress, m);
      r := MoveBy(r, zigzagOffset, 0.0);
      if !enableCustom {
        r := MoveBy(r, settings.zigzagTargetX * easedProgress, settings.zigzagTargetY * easedProgress);
      }
    case PendulumMove =>
      var pendulumAngle := PendulumAngle(settings, elapsed, m);
      r := TurnZ(r, Turn(unit, pendulumAngle));
    case WaveToTarget =>
      var waveY := WaveOffset(settings, progress, easedProgress, m);
      r := TurnZ(MoveBy(r, 0.0, waveY), waveY * 0.2);
      if !enableCustom {
        r := MoveBy(r, settings.waveTargetX * easedProgress, settings.waveTargetY * easedProgress);
      }
    case ElasticMove =>
      var scaleElastic := ElasticScale(progress, m);
      r := ScaleBy(r, scaleElastic);
      if !enableCustom {
        var elasticProgress := ElasticEase(progress, m);
        r := MoveBy(r, 3.0 * elasticProgress, 3.0 * elasticProgress);
      }
  }

  /** The four slide `case`s: the remaining distance on one axis. */
  method SlideCase(p: Pose, effect: Effect, enableCustom: bool, settings: EffectSettings,
                   progress: real, elapsed: real, easedProgress: real, m: MathLib, unit: AngleUnit)
    returns (r: Pose)
    requires effect.SlideDown? || effect.SlideUp? || effect.SlideLeft? || effect.SlideRight?
    ensures r == ApplyEffect(p, effect, enableCustom, settings, progress, elapsed,
                             easedProgress, m, unit)
  {
    match effect
    case SlideDown =>
      r := MoveBy(p, 0.0, SlideOffset(settings, easedProgress));
    case SlideUp =>
      r := MoveBy(p, 0.0, -SlideOffset(settings, easedProgress));
    case SlideLeft =>
      r := MoveBy(p, SlideOffset(settings, easedProgress), 0.0);
    case SlideRight =>
      r := MoveBy(p, -SlideOffset(settings, easedProgress), 0.0);
  }

  /** The `case`s that fade, grow, turn, bounce or circle: fadeIn, scaleIn, rotate, bounce
      and spiral. */
  method ShapeCase(p: Pose, effect: Effect, enableCustom: bool, settings: EffectSettings,
                   progress: real, elapsed: real, easedProgress: real, m: MathLib, unit: AngleUnit)
    returns (r: Pose)
    requires effect.FadeIn? || effect.ScaleIn? || effect.Rotate? || effect.Bounce? || effect.Spiral?
    ensures r == ApplyEffect(p, effect, enableCustom, settings, progress, elapsed,
                             easedProgress, m, unit)
  {
    match effect
    case FadeIn =>
      r := p.(opacity := p.opacity * easedProgress);
    case ScaleIn =>
      var scaleInFactor := easedProgress;
      r := ScaleBy(p, scaleInFactor);
    case Rotate =>
      r := TurnZ(p, RotateTurn(unit, settings, easedProgress));
    case Bounce =>
      var bounceY := BounceLift(settings, easedProgress, m);
      r := MoveBy(p, 0.0, bounceY);
    case Spiral =>
      var spiralRadius := SpiralRadiusAt(settings, easedProgress);
      var spiralAngle := SpiralAngle(settings, easedProgress);
      r := MoveBy(p, spiralRadius * m.cos(spiralAngle), spiralRadius * m.sin(spiralAngle));
  }
}
