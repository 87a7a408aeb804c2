/** The older evaluator embedded in the page `generateHtml` exports. It differs from the
    controls page in three ways: each tick starts from the pose the plane currently
    displays instead of the `data-original-*` attributes, the opacity starts at 1 and is
    written only for fadeIn or the custom animation, and the custom blend overwrites the z
    rotation. Its `stopAllAnimations` only clears the intervals. */
module LegacyExport {
  import opened JsMath
  import opened Common
  import opened LayerTypes
  import opened EffectMath
  import opened LiveEvaluator
  import opened ExportedPlanes

  /** The legacy keyframe blend: position, uniform scale, opacity and the z rotation (in
      degrees) are all replaced. */
  function LegacyBlend(p: Pose, start: Keyframe, end: Keyframe, e: real): Pose
  {
    var scale := Lerp(start.scale, end.scale, e);
    Pose(Vec3(Lerp(start.x, end.x, e), Lerp(start.y, end.y, e), Lerp(start.z, end.z, e)),
         p.rotation.(z := Lerp(start.rotation, end.rotation, e)),
         Vec3(scale, scale, scale),
         Lerp(start.opacity, end.opacity, e))
  }

  /** Whether the callback writes the material opacity. */
  predicate WritesOpacity(t: Timer)
  {
    t.specialEffect == "fadeIn" || t.enableCustom
  }

  /** What one run of the interval callback of timer `t` does to a plane with attributes `a`
      that currently displays `shown`: `None` when it clears itself without writing,
      otherwise the pose the plane displays afterwards. */
  function LegacyFrame(shown: Pose, a: PlaneAttributes, t: Timer, now: real, m: MathLib): Option<Pose>
  {
    var h := t.handle;
    var elapsed := Elapsed(h, now);
    if !h.loop && elapsed > h.duration then None
    else
      var progress := JsMod(elapsed, h.duration) / h.duration;
      var e := EaseInOut(progress);
      var base := shown.(opacity := 1.0);
      var blended := if t.enableCustom && a.customStart.Some? && a.customEnd.Some?
                     then LegacyBlend(base, a.customStart.value, a.customEnd.value, e) else base;
      var q := ApplyEffect(blended, ParseEffect(t.specialEffect), t.enableCustom, t.settings,
                           progress, elapsed, e, m, Degrees);
      Some(if WritesOpacity(t) then q else q.(opacity := shown.opacity))
  }

  /** The legacy page script's state: its planes in document order and
      `animationIntervals`. */
  class LegacyPage {
    const planes: seq<PlaneElement>
    var animationIntervals: seq<Timer>

    /** The page as it loads, with no interval running. */
    constructor (planes: seq<PlaneElement>)
      requires Distinct(planes)
      ensures this.planes == planes && animationIntervals == []
    {
      this.planes := planes;
      animationIntervals := [];
    }

    /** The planes are different elements and every interval animates one of them. */
    predicate Valid()
      reads this
    {
      Distinct(planes) && forall t :: t in animationIntervals ==> t.plane < |planes|
    }

    function Attributes(): (r: seq<PlaneAttributes>)
      ensures |r| == |planes| && forall k :: 0 <= k < |r| ==> r[k] == planes[k].attributes
    {
      seq(|planes|, k requires 0 <= k < |planes| => planes[k].attributes)
    }

    /** `stopAllAnimations`: clears every interval and leaves every plane where it is. */
    method StopAll()
      modifies this
      ensures animationIntervals == []
    {
      animationIntervals := [];
    }

    /** `playAllAnimations`: stops everything first, then starts one interval, stamped `now`,
        for each plane whose custom animation is on or whose effect is not 'none'. No plane
        is moved. */
    method PlayAll(now: real)
      requires Valid()
      modifies this
      ensures Valid()
      ensures animationIntervals == Timers(Attributes(), now)
    {
      StopAll();
      var i := 0;
      while i < |planes|
        invariant 0 <= i <= |planes|
        invariant animationIntervals == Timers(Attributes()[..i], now)
      {
        var a := planes[i].attributes;
        var enableCustom := a.animationEnabled;
        var specialEffect := a.specialEffect;
        if enableCustom || specialEffect != "none" {
          var settings := FallbackSettings;
          if a.specialSettings.Some? {
            settings := a.specialSettings.value;
          }
          var startTime := now;
          var interval := Timer(i, Handle(startTime, a.animationDuration, a.animationSpeed, a.loopAnimation),
                                enableCustom, specialEffect, settings, false);
          animationIntervals := animationIntervals + [interval];
        }
        assert Attributes()[..i + 1][..i] == Attributes()[..i];
        i := i + 1;
      }
      assert Attributes()[..|planes|] == Attributes();
      TimersSpec(Attributes(), now);
    }

    /** One run of the interval callback of `animationIntervals[i]`: past the end of a
        non-looping animation it clears its interval and writes nothing; otherwise its plane
        displays the pose `ComputeLegacyFrame` builds from what it displayed before. */
    method Tick(i: nat, now: real, m: MathLib)
      requires Valid() && i < |animationIntervals| && !animationIntervals[i].cleared
      modifies this, planes[animationIntervals[i].plane]
      ensures Valid()
      ensures var t := old(animationIntervals[i]);
              match LegacyFrame(old(planes[t.plane].shown), planes[t.plane].attributes, t, now, m)
              case None => animationIntervals == old(animationIntervals)[i := t.(cleared := true)]
                           && unchanged(planes[t.plane])
              case Some(p) => planes[t.plane].shown == p && animationIntervals == old(animationIntervals)
    {
      var t := animationIntervals[i];
      var layer := planes[t.plane];
      var frame := ComputeLegacyFrame(layer.shown, layer.attributes, t, now, m);
      match frame
      case None =>
        animationIntervals := animationIntervals[i := t.(cleared := true)];
      case Some(p) =>
        layer.shown := p;
    }
  }

  /** The body of the legacy interval callback: the clock, then the pose built step by step
      in the `final*` variables from the displayed `position`, `rotation` and `scale`
      attributes with opacity 1, the keyframe blend, the effect `switch` in degrees, and the
      conditional write of the material. */
  method ComputeLegacyFrame(shown: Pose, a: PlaneAttributes, t: Timer, now: real, m: MathLib)
    returns (frame: Option<Pose>)
    ensures frame == LegacyFrame(shown, a, t, now, m)
  {
    var h := t.handle;
    var elapsed := (now - h.startTime) / 1000.0 * h.speed;
    assert elapsed == Elapsed(h, now);
    var progress := JsMod(elapsed, h.duration) / h.duration;
    if !h.loop && elapsed > h.duration {
      return None;
    }
    var easedProgress := EaseInOut(progress);

    var finalX, finalY, finalZ := shown.position.x, shown.position.y, shown.position.z;
    var finalRotX, finalRotY, finalRotZ := shown.rotation.x, shown.rotation.y, shown.rotation.z;
    var finalScaleX, finalScaleY, finalScaleZ := shown.scale.x, shown.scale.y, shown.scale.z;
    var finalOpacity := 1.0;
    ghost var base := shown.(opacity := 1.0);
    assert base == Pose(Vec3(finalX, finalY, finalZ), Vec3(finalRotX, finalRotY, finalRotZ),
                        Vec3(finalScaleX, finalScaleY, finalScaleZ), finalOpacity);

    if t.enableCustom && a.customStart.Some? && a.customEnd.Some? {
      var customStart, customEnd := a.customStart.value, a.customEnd.value;
      finalX := Lerp(customStart.x, customEnd.x, easedProgress);
      finalY := Lerp(customStart.y, customEnd.y, easedProgress);
      finalZ := Lerp(customStart.z, customEnd.z, easedProgress);
      var customScale := Lerp(customStart.scale, customEnd.scale, easedProgress);
      finalScaleX, finalScaleY, finalScaleZ := customScale, customScale, customScale;
      finalOpacity := Lerp(customStart.opacity, customEnd.opacity, easedProgress);
      finalRotZ := Lerp(customStart.rotation, customEnd.rotation, easedProgress);
      assert Pose(Vec3(finalX, finalY, finalZ), Vec3(finalRotX, finalRotY, finalRotZ),
                  Vec3(finalScaleX, finalScaleY, finalScaleZ), finalOpacity)
          == LegacyBlend(base, customStart, customEnd, easedProgress);
    }

    var blended := Pose(Vec3(finalX, finalY, finalZ), Vec3(finalRotX, finalRotY, finalRotZ),
                        Vec3(finalScaleX, finalScaleY, finalScaleZ), finalOpacity);
    var final := EffectSwitch(blended, ParseEffect(t.specialEffect), t.enableCustom, t.settings,
                              progress, elapsed, easedProgress, m, Degrees);
    var material := shown.opacity;
    if t.specialEffect == "fadeIn" || t.enableCustom {
      material := final.opacity;
    }
    frame := Some(final.(opacity := material));
  }

  /** Because each tick starts from what the plane displays, a slide offset is added again on
      every tick: two ticks of slideDown move the plane down by both offsets, so the plane
      drifts instead of settling at its original position. */
  lemma LegacySlideDrifts(shown: Pose, a: PlaneAttributes, t: Timer, now1: real, now2: real, m: MathLib)
    requires !t.enableCustom && t.specialEffect == "slideDown"
    requires LegacyFrame(shown, a, t, now1, m).Some?
    requires LegacyFrame(LegacyFrame(shown, a, t, now1, m).value, a, t, now2, m).Some?
    ensures var h := t.handle;
            var e1 := EaseInOut(JsMod(Elapsed(h, now1), h.duration) / h.duration);
            var e2 := EaseInOut(JsMod(Elapsed(h, now2), h.duration) / h.duration);
            var second := LegacyFrame(LegacyFrame(shown, a, t, now1, m).value, a, t, now2, m).value;
            && second.position.y == shown.position.y + SlideOffset(t.settings, e1) + SlideOffset(t.settings, e2)
            && second.position.x == shown.position.x && second.opacity == shown.opacity
  {
    assert ParseEffect("slideDown") == SlideDown;
  }

  /** With the custom animation on, the frame no longer depends on the displayed position,
      scale, z rotation or opacity: only the displayed x and y rotations carry over. */
  lemma LegacyCustomNoDrift(shown1: Pose, shown2: Pose, a: PlaneAttributes, t: Timer, now: real, m: MathLib)
    requires t.enableCustom && a.customStart.Some? && a.customEnd.Some?
    requires shown1.rotation.x == shown2.rotation.x && shown1.rotation.y == shown2.rotation.y
    ensures LegacyFrame(shown1, a, t, now, m) == LegacyFrame(shown2, a, t, now, m)
  {
    var h := t.handle;
    var elapsed := Elapsed(h, now);
    if h.loop || elapsed <= h.duration {
      var progress := JsMod(elapsed, h.duration) / h.duration;
      var e := EaseInOut(progress);
      var b1 := LegacyBlend(shown1.(opacity := 1.0), a.customStart.value, a.customEnd.value, e);
      var b2 := LegacyBlend(shown2.(opacity := 1.0), a.customStart.value, a.customEnd.value, e);
      assert b1 == b2;
    }
  }

  /** Without the custom animation the opacity ignores the layer's own: fadeIn writes the
      eased progress itself, and every other effect leaves the displayed opacity alone. */
  lemma LegacyOpacity(shown: Pose, a: PlaneAttributes, t: Timer, now: real, m: MathLib)
    requires !t.enableCustom
    requires LegacyFrame(shown, a, t, now, m).Some?
    ensures var h := t.handle;
            var e := EaseInOut(JsMod(Elapsed(h, now), h.duration) / h.duration);
            var r := LegacyFrame(shown, a, t, now, m).value;
            && (t.specialEffect == "fadeIn" ==> r.opacity == e)
            && (t.specialEffect != "fadeIn" ==> r.opacity == shown.opacity)
  {
    var h := t.handle;
    var elapsed := Elapsed(h, now);
    var progress := JsMod(elapsed, h.duration) / h.duration;
    var e := EaseInOut(progress);
    var base := shown.(opacity := 1.0);
    if t.specialEffect == "fadeIn" {
      FadeScaleRotate(base, false, t.settings, progress, elapsed, e, m, Degrees);
    }
  }
}
