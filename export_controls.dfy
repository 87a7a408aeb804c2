/** The evaluator embedded in the page `generateHtmlControls` exports: its
    `playAllAnimations`, the 16 ms interval callback each animated plane gets, and its
    `stopAllAnimations`. It rebuilds the base pose from the `data-original-*` attributes on
    every tick and works in degrees. */
module ControlsExport {
  import opened JsMath
  import opened Common
  import opened LayerTypes
  import opened EffectMath
  import opened LiveEvaluator
  import opened ExportedPlanes

  /** The page's keyframe blend: position, uniform scale and opacity are replaced, and the
      blended degrees are ADDED to the base z rotation. */
  function ControlsBlend(p: Pose, start: Keyframe, end: Keyframe, e: real): Pose
  {
    var scale := Lerp(start.scale, end.scale, e);
    Pose(Vec3(Lerp(start.x, end.x, e), Lerp(start.y, end.y, e), Lerp(start.z, end.z, e)),
         p.rotation.(z := p.rotation.z + Lerp(start.rotation, end.rotation, e)),
         Vec3(scale, scale, scale),
         Lerp(start.opacity, end.opacity, e))
  }

  /** What one run of the interval callback of timer `t` does to a plane with attributes `a`
      at `now`: `None` when it clears itself without writing, otherwise the pose it writes. */
  function ControlsFrame(a: PlaneAttributes, t: Timer, now: real, m: MathLib): Option<Pose>
  {
    var h := t.handle;
    var elapsed := Elapsed(h, now);
    if !h.loop && elapsed > h.duration then None
    else
      var progress := JsMod(elapsed, h.duration) / h.duration;
      var e := EaseInOut(progress);
      var base := OriginalPose(a);
      var blended := if t.enableCustom && a.customStart.Some? && a.customEnd.Some?
                     then ControlsBlend(base, a.customStart.value, a.customEnd.value, e) else base;
      Some(ApplyEffect(blended, ParseEffect(t.specialEffect), t.enableCustom, t.settings,
                       progress, elapsed, e, m, Degrees))
  }

  /** The page script's state: its planes in document order and `animationIntervals`. */
  class ControlsPage {
    const planes: seq<PlaneElement>
    var animationIntervals: seq<Timer>

    /** The page as it loads, with no interval running. */
    constructor (planes: seq<PlaneElement>)
      requires Distinct(planes)
      ensures this.planes == planes && animationIntervals == []
    {
      this.planes := planes;
      animationIntervals := [];
    }

    /** The planes are different elements and every interval animates one of them. */
    predicate Valid()
      reads this
    {
      Distinct(planes) && forall t :: t in animationIntervals ==> t.plane < |planes|
    }

    function Elements(): set<PlaneElement>
    {
      set p | p in planes
    }

    function Attributes(): (r: seq<PlaneAttributes>)
      ensures |r| == |planes| && forall k :: 0 <= k < |r| ==> r[k] == planes[k].attributes
    {
      seq(|planes|, k requires 0 <= k < |planes| => planes[k].attributes)
    }

    /** `stopAllAnimations`: drops every interval and puts every plane back at its original
        pose, with the rotation converted to degrees. */
    method StopAll()
      modifies this, Elements()
      ensures animationIntervals == []
      ensures forall k :: 0 <= k < |planes| ==> planes[k].shown == OriginalPose(planes[k].attributes)
    {
      animationIntervals := [];
      var i := 0;
      while i < |planes|
        invariant 0 <= i <= |planes|
        invariant animationIntervals == []
        invariant forall k :: 0 <= k < i ==> planes[k].shown == OriginalPose(planes[k].attributes)
      {
        var a := planes[i].attributes;
        planes[i].shown := Pose(a.originalPosition, RadToDeg3(a.originalRotation), a.originalScale,
                                a.originalOpacity);
        i := i + 1;
      }
    }

    /** `playAllAnimations`: stops everything first, then starts one interval, stamped `now`,
        for each plane whose custom animation is on or whose effect is not 'none'. */
    method PlayAll(now: real)
      requires Valid()
      modifies this, Elements()
      ensures Valid()
      ensures animationIntervals == Timers(Attributes(), now)
      ensures forall k :: 0 <= k < |planes| ==> planes[k].shown == OriginalPose(planes[k].attributes)
    {
      StopAll();
      var i := 0;
      while i < |planes|
        invariant 0 <= i <= |planes|
        invariant animationIntervals == Timers(Attributes()[..i], now)
        invariant forall k :: 0 <= k < |planes| ==> planes[k].shown == OriginalPose(planes[k].attributes)
      {
        var a := planes[i].attributes;
        var enableCustom := a.animationEnabled;
        var specialEffect := a.specialEffect;
        if enableCustom || specialEffect != "none" {
          var settings := FallbackSettings;
          if a.specialSettings.Some? {
            settings := a.specialSettings.value;
          }
          var startTime := now;
          var interval := Timer(i, Handle(startTime, a.animationDuration, a.animationSpeed, a.loopAnimation),
                                enableCustom, specialEffect, settings, false);
          animationIntervals := animationIntervals + [interval];
        }
        assert Attributes()[..i + 1][..i] == Attributes()[..i];
        i := i + 1;
      }
      assert Attributes()[..|planes|] == Attributes();
      TimersSpec(Attributes(), now);
    }

    /** One run of the interval callback of `animationIntervals[i]`: past the end of a
        non-looping animation it clears its interval and writes nothing; otherwise it
        writes the pose `ComputeFrame` builds to its plane. */
    method Tick(i: nat, now: real, m: MathLib)
      requires Valid() && i < |animationIntervals| && !animationIntervals[i].cleared
      modifies this, planes[animationIntervals[i].plane]
      ensures Valid()
      ensures var t := old(animationIntervals[i]);
              match ControlsFrame(planes[t.plane].attributes, t, now, m)
              case None => animationIntervals == old(animationIntervals)[i := t.(cleared := true)]
                           && unchanged(planes[t.plane])
              case Some(p) => planes[t.plane].shown == p && animationIntervals == old(animationIntervals)
    {
      var t := animationIntervals[i];
      var layer := planes[t.plane];
      var frame := ComputeFrame(layer.attributes, t, now, m);
      match frame
      case None =>
        animationIntervals := animationIntervals[i := t.(cleared := true)];
      case Some(p) =>
        layer.shown := p;
    }
  }

  /** The body of the interval callback: the clock, then the pose built step by step in the
      `final*` variables from the `data-original-*` attributes, the keyframe blend and the
      effect `switch` in degrees. */
  method ComputeFrame(a: PlaneAttributes, t: Timer, now: real, m: MathLib) returns (frame: Option<Pose>)
    ensures frame == ControlsFrame(a, t, now, m)
  {
    var h := t.handle;
    var elapsed := (now - h.startTime) / 1000.0 * h.speed;
    assert elapsed == Elapsed(h, now);
    var progress := JsMod(elapsed, h.duration) / h.duration;
    if !h.loop && elapsed > h.duration {
      return None;
    }
    var easedProgress := EaseInOut(progress);

    var finalX, finalY, finalZ := a.originalPosition.x, a.originalPosition.y, a.originalPosition.z;
    var origRotZ := RadToDeg(a.originalRotation.z);
    var finalRotX, finalRotY, finalRotZ := RadToDeg(a.originalRotation.x), RadToDeg(a.originalRotation.y), origRotZ;
    var finalScaleX, finalScaleY, finalScaleZ := a.originalScale.x, a.originalScale.y, a.originalScale.z;
    var finalOpacity := a.originalOpacity;
    ghost var base := OriginalPose(a);
    assert base == Pose(Vec3(finalX, finalY, finalZ), Vec3(finalRotX, finalRotY, finalRotZ),
                        Vec3(finalScaleX, finalScaleY, finalScaleZ), finalOpacity);

    if t.enableCustom && a.customStart.Some? && a.customEnd.Some? {
      var customStart, customEnd := a.customStart.value, a.customEnd.value;
      finalX := Lerp(customStart.x, customEnd.x, easedProgress);
      finalY := Lerp(customStart.y, customEnd.y, easedProgress);
      finalZ := Lerp(customStart.z, customEnd.z, easedProgress);
      var customScale := Lerp(customStart.scale, customEnd.scale, easedProgress);
      finalScaleX, finalScaleY, finalScaleZ := customScale, customScale, customScale;
      finalOpacity := Lerp(customStart.opacity, customEnd.opacity, easedProgress);
      finalRotZ := origRotZ + Lerp(customStart.rotation, customEnd.rotation, easedProgress);
      assert Pose(Vec3(finalX, finalY, finalZ), Vec3(finalRotX, finalRotY, finalRotZ),
                  Vec3(finalScaleX, finalScaleY, finalScaleZ), finalOpacity)
          == ControlsBlend(base, customStart, customEnd, easedProgress);
    }

    var blended := Pose(Vec3(finalX, finalY, finalZ), Vec3(finalRotX, finalRotY, finalRotZ),
                        Vec3(finalScaleX, finalScaleY, finalScaleZ), finalOpacity);
    var final := EffectSwitch(blended, ParseEffect(t.specialEffect), t.enableCustom, t.settings,
                              progress, elapsed, easedProgress, m, Degrees);
    frame := Some(final);
  }
}
