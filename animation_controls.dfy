/** The form handlers that write one group of inputs into the selected layer, the effect
    panel's visibility, and the frame loop `animate`. */
module AnimationControls {
  import opened JsMath
  import opened Common
  import opened LayerTypes
  import opened EffectMath
  import opened LiveEvaluator
  import opened Inputs
  import opened Layers
  import opened LayerControls

  /** The effect-specific blocks of the effect panel; the four slides share one. */
  datatype SubPanel =
    | SwingControls | ZigzagControls | PendulumControls | WaveControls
    | BounceControls | SpiralControls | SlideControls | RotateControls

  /** What `updateSpecialEffect` shows: the effect panel as a whole and at most one block. */
  datatype Visibility = Visibility(effectControls: bool, subPanel: Option<SubPanel>)

  /** The block the `switch` of `updateSpecialEffect` shows for an effect; elasticMove,
      fadeIn, scaleIn and names without a `case` have none. */
  function SubPanelFor(e: Effect): Option<SubPanel>
  {
    match e
    case SwingToTarget => Some(SwingControls)
    case ZigzagToTarget => Some(ZigzagControls)
    case PendulumMove => Some(PendulumControls)
    case WaveToTarget => Some(WaveControls)
    case Bounce => Some(BounceControls)
    case Spiral => Some(SpiralControls)
    case SlideDown => Some(SlideControls)
    case SlideUp => Some(SlideControls)
    case SlideLeft => Some(SlideControls)
    case SlideRight => Some(SlideControls)
    case Rotate => Some(RotateControls)
    case _ => None
  }

  /** The visibility `updateSpecialEffect` leaves: every block hidden first, then the panel
      shown unless the effect is "none", and inside it the effect's own block. */
  function EffectVisibility(name: string): (v: Visibility)
    ensures v.effectControls <==> name != "none"
    ensures v.subPanel.Some? ==> v.effectControls
    ensures v.subPanel == Some(SlideControls) <==>
              name == "slideDown" || name == "slideUp" || name == "slideLeft" || name == "slideRight"
    ensures v.subPanel.None? <==>
              name == "none" || ParseEffect(name) in {ElasticMove, FadeIn, ScaleIn, UnknownEffect}
  {
    if name == "none" then Visibility(false, None)
    else Visibility(true, SubPanelFor(ParseEffect(name)))
  }

  /** `updateSpecialEffect`: returns what the panel shows and stores the chosen name on the
      selected layer. A running handle picks the new effect up on its next tick. */
  method UpdateSpecialEffect(ed: Editor, panel: Panel) returns (v: Visibility)
    modifies ed.Selected()
    ensures v == EffectVisibility(panel.specialEffect)
    ensures ed.selectedLayer.Some? ==>
              ed.selectedLayer.value.State()
              == old(ed.selectedLayer.value.State()).(specialEffect := panel.specialEffect)
  {
    if panel.specialEffect == "none" {
      v := Visibility(false, None);
    } else {
      v := Visibility(true, SubPanelFor(ParseEffect(panel.specialEffect)));
    }
    if ed.selectedLayer.Some? {
      ed.selectedLayer.value.specialEffect := panel.specialEffect;
    }
  }

  /** `updateCustomValues`: replaces the selected layer's custom animation by the twelve
      keyframe inputs. */
  method UpdateCustomValues(ed: Editor, panel: Panel)
    modifies ed.Selected()
    ensures ed.selectedLayer.Some? ==>
              ed.selectedLayer.value.State()
              == old(ed.selectedLayer.value.State()).(customAnimation := panel.customAnimation)
  {
    if ed.selectedLayer.Some? {
      ed.selectedLayer.value.customAnimation := panel.customAnimation;
    }
  }

  /** `updateControlValues`: refreshes the value labels (not modelled) and, through
      `updateCustomValues`, the selected layer's custom animation. Every setter below ends
      with it, so each of them also takes the keyframe inputs over. */
  method UpdateControlValues(ed: Editor, panel: Panel)
    modifies ed.Selected()
    ensures ed.selectedLayer.Some? ==>
              ed.selectedLayer.value.State()
              == old(ed.selectedLayer.value.State()).(customAnimation := panel.customAnimation)
  {
    UpdateCustomValues(ed, panel);
  }

  /** `updateSpecialEffectSettings`: the nineteen effect inputs into the selected layer's
      settings record, then `updateControlValues`. */
  method UpdateSpecialEffectSettings(ed: Editor, panel: Panel)
    modifies ed.Selected()
    ensures ed.selectedLayer.Some? ==>
              ed.selectedLayer.value.State()
              == old(ed.selectedLayer.value.State()).(specialEffectSettings := panel.settings,
                                                      customAnimation := panel.customAnimation)
  {
    if ed.selectedLayer.None? {
      return;
    }
    ed.selectedLayer.value.specialEffectSettings := panel.settings;
    UpdateControlValues(ed, panel);
  }

  /** A layer whose mesh shows exactly its `original*` pose, as after `selectLayer` of a
      layer that is not animating. */
  predicate AtRest(l: Layer)
    reads l, l.mesh
  {
    l.mesh.Current() == BasePose(l.Config())
  }

  /** The rotation inputs (degrees) as the radians the handlers store. */
  function DegToRad3(v: Vec3): (r: Vec3)
    ensures r.x * 180.0 / Pi == v.x && r.y * 180.0 / Pi == v.y && r.z * 180.0 / Pi == v.z
  {
    Vec3(DegToRad(v.x), DegToRad(v.y), DegToRad(v.z))
  }

  /** `updatePosition`: the position inputs into the mesh and into `originalPosition`. */
  method UpdatePosition(ed: Editor, panel: Panel)
    modifies ed.Selected(), ed.SelectedMesh()
    ensures ed.selectedLayer.Some? ==>
              var l := ed.selectedLayer.value;
              && l.State() == old(l.State()).(originalPosition := panel.position,
                                               customAnimation := panel.customAnimation)
              && l.mesh.Current() == old(l.mesh.Current()).(position := panel.position)
              && (old(AtRest(l)) ==> AtRest(l))
  {
    if ed.selectedLayer.None? {
      return;
    }
    var layer := ed.selectedLayer.value;
    layer.mesh.position := panel.position;
    layer.originalPosition := panel.position;
    UpdateControlValues(ed, panel);
  }

  /** `updateRotation`: the rotation inputs, converted to radians, into the mesh and into
      `originalRotation`. */
  method UpdateRotation(ed: Editor, panel: Panel)
    modifies ed.Selected(), ed.SelectedMesh()
    ensures ed.selectedLayer.Some? ==>
              var l := ed.selectedLayer.value;
              && l.State() == old(l.State()).(originalRotation := DegToRad3(panel.rotationDeg),
                                               customAnimation := panel.customAnimation)
              && l.mesh.Current() == old(l.mesh.Current()).(rotation := DegToRad3(panel.rotationDeg))
              && (old(AtRest(l)) ==> AtRest(l))
  {
    if ed.selectedLayer.None? {
      return;
    }
    var layer := ed.selectedLayer.value;
    var r := Vec3(panel.rotationDeg.x * Pi / 180.0, panel.rotationDeg.y * Pi / 180.0,
                  panel.rotationDeg.z * Pi / 180.0);
    assert r == DegToRad3(panel.rotationDeg);
    layer.mesh.rotation := r;
    layer.originalRotation := r;
    UpdateControlValues(ed, panel);
  }

  /** `updateTransparency`: the alpha input into the material and into `originalOpacity`. */
  method UpdateTransparency(ed: Editor, panel: Panel)
    modifies ed.Selected(), ed.SelectedMesh()
    ensures ed.selectedLayer.Some? ==>
              var l := ed.selectedLayer.value;
              && l.State() == old(l.State()).(originalOpacity := panel.alpha,
                                               customAnimation := panel.customAnimation)
              && l.mesh.Current() == old(l.mesh.Current()).(opacity := panel.alpha)
              && (old(AtRest(l)) ==> AtRest(l))
  {
    if ed.selectedLayer.None? {
      return;
    }
    var layer := ed.selectedLayer.value;
    layer.mesh.opacity := panel.alpha;
    layer.originalOpacity := panel.alpha;
    UpdateControlValues(ed, panel);
  }

  /** `updateScale`: the one scale input, on all three axes, into the mesh and into
      `originalScale`. */
  method UpdateScale(ed: Editor, panel: Panel)
    modifies ed.Selected(), ed.SelectedMesh()
    ensures ed.selectedLayer.Some? ==>
              var l := ed.selectedLayer.value;
              var v := Vec3(panel.scale, panel.scale, panel.scale);
              && l.State() == old(l.State()).(originalScale := v, customAnimation := panel.customAnimation)
              && l.mesh.Current() == old(l.mesh.Current()).(scale := v)
              && (old(AtRest(l)) ==> AtRest(l))
  {
    if ed.selectedLayer.None? {
      return;
    }
    var layer := ed.selectedLayer.value;
    var v := Vec3(panel.scale, panel.scale, panel.scale);
    layer.mesh.scale := v;
    layer.originalScale := v;
    UpdateControlValues(ed, panel);
  }

  /** `updateAnimationSpeed`: the speed input into the selected layer. */
  method UpdateAnimationSpeed(ed: Editor, panel: Panel)
    modifies ed.Selected()
    ensures ed.selectedLayer.Some? ==>
              ed.selectedLayer.value.State()
              == old(ed.selectedLayer.value.State()).(animationSpeed := panel.animationSpeed,
                                                      customAnimation := panel.customAnimation)
  {
    if ed.selectedLayer.None? {
      return;
    }
    ed.selectedLayer.value.animationSpeed := panel.animationSpeed;
    UpdateControlValues(ed, panel);
  }

  /** `updateAnimationDuration`: the duration input into the selected layer. */
  method UpdateAnimationDuration(ed: Editor, panel: Panel)
    modifies ed.Selected()
    ensures ed.selectedLayer.Some? ==>
              ed.selectedLayer.value.State()
              == old(ed.selectedLayer.value.State()).(animationDuration := panel.animationDuration,
                                                      customAnimation := panel.customAnimation)
  {
    if ed.selectedLayer.None? {
      return;
    }
    ed.selectedLayer.value.animationDuration := panel.animationDuration;
    UpdateControlValues(ed, panel);
  }

  /** Selecting a layer after the four pose setters shows the values just typed: the
      rotation sliders read back the degrees that were converted to radians, and the scale
      slider the value stored on every axis. */
  lemma SelectShowsEdits(s: LayerState, mesh: Pose, panel: Panel)
    ensures var p := PanelFor(s, mesh.(position := panel.position, rotation := DegToRad3(panel.rotationDeg),
                                       scale := Vec3(panel.scale, panel.scale, panel.scale),
                                       opacity := panel.alpha));
            p.position == panel.position && p.rotationDeg == panel.rotationDeg
            && p.scale == panel.scale && p.alpha == panel.alpha
  {
    var r := DegToRad3(panel.rotationDeg);
    assert r.x / Pi * 180.0 == panel.rotationDeg.x;
    assert r.y / Pi * 180.0 == panel.rotationDeg.y;
    assert r.z / Pi * 180.0 == panel.rotationDeg.z;
  }

  /** A running handle captured the speed and duration when it was created, so the two
      setters change nothing it draws until the animation is applied again; the next handle
      carries the new values. */
  lemma TimingNeedsReapply(s: LayerState, panel: Panel, h: Handle, now: real, start: real, m: MathLib)
    requires Animated(s.enableCustomAnimation, s.specialEffect)
    ensures var t := s.(animationSpeed := panel.animationSpeed, animationDuration := panel.animationDuration);
            && LivePose(ConfigOf(t), h, now, m) == LivePose(ConfigOf(s), h, now, m)
            && CreateAnimation(t, start) == Some(Handle(start, panel.animationDuration, panel.animationSpeed, s.loopAnimation))
  {
  }

  /** The effect settings, unlike the timing, reach a running handle at its next tick: the
      pose it draws is the one for the new settings. */
  lemma SettingsReachRunningHandle(s: LayerState, panel: Panel, h: Handle, now: real, m: MathLib)
    ensures var t := s.(specialEffectSettings := panel.settings, customAnimation := panel.customAnimation);
            LivePose(ConfigOf(t), h, now, m)
            == LivePose(ConfigOf(s).(settings := panel.settings, customAnimation := panel.customAnimation), h, now, m)
  {
  }

  /** `animate`, one frame: every layer that holds a handle gets `update(currentTime)`; the
      other meshes and every layer record stay as they are. */
  method Animate(ed: Editor, currentTime: real, m: MathLib)
    requires ed.Valid()
    modifies ed.Meshes()
    ensures forall k :: 0 <= k < |ed.imageLayers| && ed.imageLayers[k].animation.Some? ==>
              ed.imageLayers[k].Shows(currentTime, m)
    ensures forall k :: 0 <= k < |ed.imageLayers| && ed.imageLayers[k].animation.None? ==>
              unchanged(ed.imageLayers[k].mesh)
  {
    var layers := ed.imageLayers;
    var i := 0;
    while i < |layers|
      invariant 0 <= i <= |layers|
      invariant forall k :: 0 <= k < i && layers[k].animation.Some? ==> layers[k].Shows(currentTime, m)
      invariant forall k :: 0 <= k < |layers| && (i <= k || layers[k].animation.None?) ==>
                  unchanged(layers[k].mesh)
    {
      var layer := layers[i];
      if layer.animation.Some? {
        assert forall k :: 0 <= k < |layers| && k != i ==> layers[k].mesh != layer.mesh;
        layer.Update(currentTime, m);
      }
      i := i + 1;
    }
  }
}
