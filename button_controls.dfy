/** The animation buttons: apply, preview, stop, play all and stop all. */
module ButtonControls {
  import opened JsMath
  import opened Common
  import opened LayerTypes
  import opened EffectMath
  import opened LiveEvaluator
  import opened Inputs
  import opened Layers
  import opened ScriptControls
  import opened AnimationControls

  /** The record `applyAnimation` leaves on the selected layer: the saved form fields, the
      effect settings and keyframes from the form, and a handle made from that record at
      `now` (none when nothing is animated). */
  function Applied(s: LayerState, panel: Panel, now: real): (r: LayerState)
    ensures r.animation.None? <==> !Animated(panel.enableCustomAnimation, panel.specialEffect)
    ensures r.animation.Some? ==>
              r.animation.value == Handle(now, panel.animationDuration, panel.animationSpeed, panel.loopAnimation)
    ensures r.loopAnimation == panel.loopAnimation && r.specialEffect == panel.specialEffect
    ensures r.enableCustomAnimation == panel.enableCustomAnimation
    ensures r.specialEffectSettings == panel.settings && r.customAnimation == panel.customAnimation
    ensures r.name == s.name && r.originalPosition == s.originalPosition
            && r.originalRotation == s.originalRotation && r.originalScale == s.originalScale
            && r.originalOpacity == s.originalOpacity
  {
    var t := Saved(s, panel).(specialEffectSettings := panel.settings, customAnimation := panel.customAnimation);
    t.(animation := CreateAnimation(t, now))
  }

  /** Applying is independent of the layer's previous animation fields: applying the same
      form twice at the same moment is applying it once. */
  lemma ApplyIdempotent(s: LayerState, panel: Panel, now: real)
    ensures Applied(Applied(s, panel, now), panel, now) == Applied(s, panel, now)
  {
  }

  /** After applying, the layer draws the form's animation: at every later sample its pose is
      the live pose of its own base pose under the form's effect, keyframes and settings, with
      a handle started at `now` with the form's timing. */
  lemma AppliedDrawsForm(s: LayerState, panel: Panel, now: real, t: real, m: MathLib)
    requires Animated(panel.enableCustomAnimation, panel.specialEffect)
    ensures var r := Applied(s, panel, now);
            LivePose(ConfigOf(r), r.animation.value, t, m)
            == LivePose(LayerConfig(s.originalPosition, s.originalRotation, s.originalScale, s.originalOpacity,
                                    panel.enableCustomAnimation, panel.specialEffect, panel.customAnimation,
                                    panel.settings),
                        Handle(now, panel.animationDuration, panel.animationSpeed, panel.loopAnimation), t, m)
  {
  }

  /** `applyAnimation`: saves the form, takes the effect settings over, stops the old handle
      and stores a new one; without a selection nothing happens. */
  method ApplyAnimation(ed: Editor, panel: Panel, now: real)
    modifies ed.Selected()
    ensures ed.selectedLayer.Some? ==>
              ed.selectedLayer.value.State() == Applied(old(ed.selectedLayer.value.State()), panel, now)
  {
    if ed.selectedLayer.None? {
      return;
    }
    var layer := ed.selectedLayer.value;
    SaveCurrentLayerSettings(ed, panel);
    UpdateSpecialEffectSettings(ed, panel);
    if layer.animation.Some? {
      layer.Stop();
    }
    layer.animation := CreateAnimation(layer.State(), now);
  }

  /** The record `previewAnimation` leaves, as written: the loop flag is cleared and then
      `applyAnimation` runs, whose `saveCurrentLayerSettings` copies the loop checkbox back. */
  function Previewed(s: LayerState, panel: Panel, now: real): (r: LayerState)
    ensures r == Applied(s, panel, now)
  {
    Applied(s.(loopAnimation := false), panel, now)
  }

  /** The discrepancy: with the loop box checked, the preview of an animated layer builds a
      looping handle, so the "single run" repeats until stopped; its pose one cycle later is
      the pose of now, never the pinned end pose. */
  lemma PreviewLoopsWhenBoxChecked(s: LayerState, panel: Panel, now: real, t: real, m: MathLib)
    requires panel.loopAnimation && Animated(panel.enableCustomAnimation, panel.specialEffect)
    requires panel.animationDuration > 0.0 && panel.animationSpeed > 0.0
    requires ParseEffect(panel.specialEffect) != PendulumMove
    requires t >= now
    ensures var r := Previewed(s, panel, now);
            var h := Handle(now, panel.animationDuration, panel.animationSpeed, true);
            && r.animation == Some(h)
            && LivePose(ConfigOf(r), h, t + h.duration * 1000.0 / h.speed, m) == LivePose(ConfigOf(r), h, t, m)
  {
    var r := Previewed(s, panel, now);
    var h := Handle(now, panel.animationDuration, panel.animationSpeed, true);
    assert r.animation == Some(h);
    NonNegQuotientProduct(t - now, h.speed);
    assert Elapsed(h, t) == (t - now) / 1000.0 * h.speed;
    var c := ConfigOf(r);
    assert ParseEffect(c.specialEffect) != PendulumMove;
    LiveLoopRepeats(c, h, t, m);
  }

  /** (t / 1000) * speed is non-negative for non-negative t and speed. */
  lemma NonNegQuotientProduct(t: real, speed: real)
    requires t >= 0.0 && speed > 0.0
    ensures t / 1000.0 * speed >= 0.0
  {
    assert t / 1000.0 >= 0.0;
  }

  /** `previewAnimation` as written: remembers the loop flag, clears it, applies; returns the
      remembered flag for the timer of `PreviewRestore`. */
  method PreviewAnimation(ed: Editor, panel: Panel, now: real) returns (originalLoop: Option<bool>)
    modifies ed.Selected()
    ensures ed.selectedLayer.None? <==> originalLoop.None?
    ensures ed.selectedLayer.Some? ==>
              originalLoop == Some(old(ed.selectedLayer.value.loopAnimation))
              && ed.selectedLayer.value.State() == Previewed(old(ed.selectedLayer.value.State()), panel, now)
  {
    if ed.selectedLayer.None? {
      return None;
    }
    var layer := ed.selectedLayer.value;
    originalLoop := Some(layer.loopAnimation);
    layer.loopAnimation := false;
    ApplyAnimation(ed, panel, now);
  }

  /** The record of the evidently intended preview: one run with the form's settings, the
      loop flag off for the handle. */
  function PreviewedOnce(s: LayerState, panel: Panel, now: real): (r: LayerState)
    ensures r.animation.Some? <==> Animated(panel.enableCustomAnimation, panel.specialEffect)
    ensures r.animation.Some? ==>
              r.animation.value == Handle(now, panel.animationDuration, panel.animationSpeed, false)
    ensures !r.loopAnimation && r.specialEffect == panel.specialEffect
    ensures r.(loopAnimation := panel.loopAnimation, animation := None)
            == Applied(s, panel, now).(animation := None)
  {
    Applied(s, panel.(loopAnimation := false), now)
  }

  /** The intended preview runs once: its handle does not loop, and once the duration has
      passed the pose stays at the end pose (the eased progress is 1) for every effect but
      pendulumMove. */
  lemma PreviewOnceEnds(s: LayerState, panel: Panel, now: real, t1: real, t2: real, m: MathLib)
    requires Animated(panel.enableCustomAnimation, panel.specialEffect)
    requires ParseEffect(panel.specialEffect) != PendulumMove
    ensures var r := PreviewedOnce(s, panel, now);
            var h := r.animation.value;
            && r.animation.Some? && !h.loop
            && (Elapsed(h, t1) > h.duration && Elapsed(h, t2) > h.duration ==>
                  LivePose(ConfigOf(r), h, t1, m) == LivePose(ConfigOf(r), h, t2, m)
                  && EaseInOut(LiveProgress(Elapsed(h, t1), h.duration, h.loop)) == 1.0)
  {
    var r := PreviewedOnce(s, panel, now);
    var h := r.animation.value;
    if Elapsed(h, t1) > h.duration && Elapsed(h, t2) > h.duration {
      LiveHoldsEndPose(ConfigOf(r), h, t1, t2, m);
    }
  }

  /** The preview with the loop flag cleared for the handle it builds; the layer keeps the
      form's other fields, and the flag is restored by `PreviewRestore`. */
  method PreviewAnimationOnce(ed: Editor, panel: Panel, now: real) returns (originalLoop: Option<bool>)
    modifies ed.Selected()
    ensures ed.selectedLayer.None? <==> originalLoop.None?
    ensures ed.selectedLayer.Some? ==>
              originalLoop == Some(old(ed.selectedLayer.value.loopAnimation))
              && ed.selectedLayer.value.State() == PreviewedOnce(old(ed.selectedLayer.value.State()), panel, now)
  {
    if ed.selectedLayer.None? {
      return None;
    }
    originalLoop := Some(ed.selectedLayer.value.loopAnimation);
    ApplyAnimation(ed, panel.(loopAnimation := false), now);
  }

  /** The `setTimeout` callback of the preview: writes the remembered flag into whichever
      layer is selected when it fires; with no selection the assignment throws (`threw`). */
  method PreviewRestore(ed: Editor, originalLoop: bool) returns (threw: bool)
    modifies ed.Selected()
    ensures threw <==> ed.selectedLayer.None?
    ensures ed.selectedLayer.Some? ==>
              ed.selectedLayer.value.State() == old(ed.selectedLayer.value.State()).(loopAnimation := originalLoop)
  {
    if ed.selectedLayer.None? {
      return true;
    }
    ed.selectedLayer.value.loopAnimation := originalLoop;
    threw := false;
  }

  /** `stopAnimation`: the selected layer's handle is dropped. */
  method StopAnimation(ed: Editor)
    modifies ed.Selected()
    ensures ed.selectedLayer.Some? ==>
              ed.selectedLayer.value.State() == old(ed.selectedLayer.value.State()).(animation := None)
  {
    if ed.selectedLayer.None? || ed.selectedLayer.value.animation.None? {
      return;
    }
    ed.selectedLayer.value.Stop();
  }

  /** What `playAllAnimations` does to one layer: an animated layer gets a new handle from
      its own record; any other layer keeps whatever handle it had. */
  function Replayed(s: LayerState, now: real): (r: LayerState)
    ensures r.(animation := s.animation) == s
    ensures Animated(s.enableCustomAnimation, s.specialEffect) ==>
              r.animation == Some(Handle(now, s.animationDuration, s.animationSpeed, s.loopAnimation))
    ensures !Animated(s.enableCustomAnimation, s.specialEffect) ==> r.animation == s.animation
  {
    if Animated(s.enableCustomAnimation, s.specialEffect) then s.(animation := CreateAnimation(s, now)) else s
  }

  /** Replaying an applied layer at the moment it was applied changes nothing. */
  lemma ReplayAfterApply(s: LayerState, panel: Panel, now: real)
    ensures Replayed(Applied(s, panel, now), now) == Applied(s, panel, now)
  {
  }

  /** `playAllAnimations`: every layer replayed at `now`; the list is untouched. */
  method PlayAllAnimations(ed: Editor, now: real)
    requires ed.Valid()
    modifies ed.Layers()
    ensures forall l :: l in ed.imageLayers ==> l.State() == Replayed(old(l.State()), now)
  {
    var layers := ed.imageLayers;
    var i := 0;
    while i < |layers|
      invariant 0 <= i <= |layers|
      invariant forall j :: 0 <= j < i ==> layers[j].State() == Replayed(old(layers[j].State()), now)
      invariant forall j :: i <= j < |layers| ==> layers[j].State() == old(layers[j].State())
    {
      var layer := layers[i];
      if layer.enableCustomAnimation || layer.specialEffect != "none" {
        if layer.animation.Some? {
          layer.Stop();
        }
        layer.animation := CreateAnimation(layer.State(), now);
      }
      i := i + 1;
    }
  }

  /** `stopAllAnimations`: every layer loses its handle; nothing else changes. */
  method StopAllAnimations(ed: Editor)
    requires ed.Valid()
    modifies ed.Layers()
    ensures forall l :: l in ed.imageLayers ==> l.State() == old(l.State()).(animation := None)
  {
    var layers := ed.imageLayers;
    var i := 0;
    while i < |layers|
      invariant 0 <= i <= |layers|
      invariant forall j :: 0 <= j < i ==> layers[j].State() == old(layers[j].State()).(animation := None)
      invariant forall j :: i <= j < |layers| ==> layers[j].State() == old(layers[j].State())
    {
      var layer := layers[i];
      if layer.animation.Some? {
        layer.Stop();
      }
      i := i + 1;
    }
  }
}
