/** The editor's mutable objects: a layer's Three.js mesh, the layer record built by
    `addImageLayer`, and the editor globals `imageLayers`, `selectedLayer` and `layerCounter`. */
module Layers {
  import opened JsMath
  import opened Common
  import opened LayerTypes
  import opened EffectMath
  import opened LiveEvaluator

  /** The parts of a `THREE.Mesh` the editor writes: position, rotation (radians), scale and
      the opacity of its material. */
  class Mesh {
    var position: Vec3
    var rotation: Vec3
    var scale: Vec3
    var opacity: real

    /** A new mesh sits at the origin, unrotated, at scale 1 and fully opaque. */
    constructor ()
      ensures Current() == Pose(Vec3(0.0, 0.0, 0.0), Vec3(0.0, 0.0, 0.0), Vec3(1.0, 1.0, 1.0), 1.0)
    {
      position := Vec3(0.0, 0.0, 0.0);
      rotation := Vec3(0.0, 0.0, 0.0);
      scale := Vec3(1.0, 1.0, 1.0);
      opacity := 1.0;
    }

    function Current(): Pose
      reads this
    {
      Pose(position, rotation, scale, opacity)
    }

    /** `position.set`, `rotation.set`, `scale.set` and `material.opacity =` together. */
    method SetPose(p: Pose)
      modifies this
      ensures Current() == p
    {
      position := p.position;
      rotation := p.rotation;
      scale := p.scale;
      opacity := p.opacity;
    }
  }

  /** Every field of a layer record except its identity, its mesh and its texture. */
  datatype LayerState = LayerState(
    name: string,
    originalPosition: Vec3,
    originalRotation: Vec3,   // radians
    originalScale: Vec3,
    originalOpacity: real,
    animation: Option<Handle>,
    enableCustomAnimation: bool,
    specialEffect: string,
    animationSpeed: real,
    animationDuration: NonZero,
    loopAnimation: bool,
    customAnimation: CustomAnimation,
    specialEffectSettings: EffectSettings)

  /** The record `addImageLayer` builds for a new image. */
  function DefaultLayerState(name: string): (s: LayerState)
    ensures s.animation == None && !Animated(s.enableCustomAnimation, s.specialEffect)
    ensures s.customAnimation.start == s.customAnimation.end == RestKeyframe
  {
    LayerState(name, Vec3(0.0, 0.0, 0.0), Vec3(0.0, 0.0, 0.0), Vec3(1.0, 1.0, 1.0), 1.0,
               None, false, "none", 1.0, 2.0, false,
               CustomAnimation(RestKeyframe, RestKeyframe), DefaultSettings)
  }

  /** What the `update` closure reads from the layer on every tick. */
  function ConfigOf(s: LayerState): (c: LayerConfig)
    ensures c.enableCustomAnimation == s.enableCustomAnimation && c.specialEffect == s.specialEffect
    ensures BasePose(c) == Pose(s.originalPosition, s.originalRotation, s.originalScale, s.originalOpacity)
  {
    LayerConfig(s.originalPosition, s.originalRotation, s.originalScale, s.originalOpacity,
                s.enableCustomAnimation, s.specialEffect, s.customAnimation, s.specialEffectSettings)
  }

  /** `createAnimationForLayer`: no handle when neither the custom animation nor an effect is
      chosen; otherwise a handle started at `now` that captures the layer's duration, speed
      and loop flag. */
  function CreateAnimation(s: LayerState, now: real): (r: Option<Handle>)
    ensures r.None? <==> !Animated(s.enableCustomAnimation, s.specialEffect)
    ensures r.Some? ==> r.value.startTime == now && r.value.duration == s.animationDuration
                        && r.value.speed == s.animationSpeed && r.value.loop == s.loopAnimation
  {
    if !s.enableCustomAnimation && s.specialEffect == "none" then None
    else Some(Handle(now, s.animationDuration, s.animationSpeed, s.loopAnimation))
  }

  /** An image layer. The handle in `animation` is the object `createAnimationForLayer`
      returns; its `update` closure reads the layer's fields afresh on every tick except the
      duration, speed and loop flag it captured at creation. The settings record it holds is
      the layer's own, which the editor only ever changes in place. */
  class Layer {
    const id: int
    const mesh: Mesh
    var name: string
    var originalPosition: Vec3
    var originalRotation: Vec3
    var originalScale: Vec3
    var originalOpacity: real
    var animation: Option<Handle>
    var enableCustomAnimation: bool
    var specialEffect: string
    var animationSpeed: real
    var animationDuration: NonZero
    var loopAnimation: bool
    var customAnimation: CustomAnimation
    var specialEffectSettings: EffectSettings

    /** A layer with the given fields and a fresh mesh at the default pose. */
    constructor (id: int, s: LayerState)
      ensures this.id == id && State() == s && fresh(mesh)
      ensures mesh.Current() == Pose(Vec3(0.0, 0.0, 0.0), Vec3(0.0, 0.0, 0.0), Vec3(1.0, 1.0, 1.0), 1.0)
    {
      this.id := id;
      mesh := new Mesh();
      name := s.name;
      originalPosition := s.originalPosition;
      originalRotation := s.originalRotation;
      originalScale := s.originalScale;
      originalOpacity := s.originalOpacity;
      animation := s.animation;
      enableCustomAnimation := s.enableCustomAnimation;
      specialEffect := s.specialEffect;
      animationSpeed := s.animationSpeed;
      animationDuration := s.animationDuration;
      loopAnimation := s.loopAnimation;
      customAnimation := s.customAnimation;
      specialEffectSettings := s.specialEffectSettings;
    }

    function State(): LayerState
      reads this
    {
      LayerState(name, originalPosition, originalRotation, originalScale, originalOpacity,
                 animation, enableCustomAnimation, specialEffect, animationSpeed,
                 animationDuration, loopAnimation, customAnimation, specialEffectSettings)
    }

    function Config(): LayerConfig
      reads this
    {
      ConfigOf(State())
    }

    /** The handle's `stop()`: empties the layer's animation slot and nothing else. */
    method Stop()
      modifies this
      ensures State() == old(State()).(animation := None)
    {
      animation := None;
    }

    /** The mesh shows what the layer's handle draws at `currentTime`. */
    predicate Shows(currentTime: real, m: MathLib)
      reads this, mesh
      requires animation.Some?
    {
      mesh.Current() == LivePose(Config(), animation.value, currentTime, m)
    }

    /** The handle's `update(currentTime)`: builds the pose step by step in the `final*`
        variables (base pose, keyframe blend, effect) and writes it to the mesh, which then
        shows the live pose of the layer's current configuration. */
    method Update(currentTime: real, m: MathLib)
      requires animation.Some?
      modifies mesh
      ensures Shows(currentTime, m)
    {
      var h := animation.value;
      var elapsed := (currentTime - h.startTime) / 1000.0 * h.speed;
      assert elapsed == Elapsed(h, currentTime);
      var progress := JsMod(elapsed, h.duration) / h.duration;
      if !h.loop && elapsed > h.duration {
        progress := 1.0;
      }
      assert progress == LiveProgress(elapsed, h.duration, h.loop);
      var easedProgress := EaseInOut(progress);

      ghost var base := BasePose(Config());
      var finalX, finalY, finalZ := originalPosition.x, originalPosition.y, originalPosition.z;
      var finalRotX, finalRotY, finalRotZ := originalRotation.x, originalRotation.y, originalRotation.z;
      var finalScaleX, finalScaleY, finalScaleZ := originalScale.x, originalScale.y, originalScale.z;
      var finalOpacity := originalOpacity;
      assert base == Pose(Vec3(finalX, finalY, finalZ), Vec3(finalRotX, finalRotY, finalRotZ),
                          Vec3(finalScaleX, finalScaleY, finalScaleZ), finalOpacity);

      if enableCustomAnimation {
        var start, end := customAnimation.start, customAnimation.end;
        finalX := Lerp(start.x, end.x, easedProgress);
        finalY := Lerp(start.y, end.y, easedProgress);
        finalZ := Lerp(start.z, end.z, easedProgress);
        var customScale := Lerp(start.scale, end.scale, easedProgress);
        finalScaleX, finalScaleY, finalScaleZ := customScale, customScale, customScale;
        finalOpacity := Lerp(start.opacity, end.opacity, easedProgress);
        finalRotZ := DegToRad(Lerp(start.rotation, end.rotation, easedProgress));
        assert Pose(Vec3(finalX, finalY, finalZ), Vec3(finalRotX, finalRotY, finalRotZ),
                    Vec3(finalScaleX, finalScaleY, finalScaleZ), finalOpacity)
            == LiveBlend(base, customAnimation, easedProgress);
      }

      var blended := Pose(Vec3(finalX, finalY, finalZ), Vec3(finalRotX, finalRotY, finalRotZ),
                          Vec3(finalScaleX, finalScaleY, finalScaleZ), finalOpacity);
      var final := EffectSwitch(blended, ParseEffect(specialEffect), enableCustomAnimation,
                                specialEffectSettings, progress, elapsed, easedProgress, m, Radians);

      mesh.position := final.position;
      mesh.rotation := final.rotation;
      mesh.scale := final.scale;
      mesh.opacity := final.opacity;
    }
  }

  /** The editor globals that hold the layers. */
  class Editor {
    var imageLayers: seq<Layer>
    var selectedLayer: Option<Layer>
    var layerCounter: int

    /** An editor with no layers, as the page starts. */
    constructor ()
      ensures imageLayers == [] && selectedLayer == None && layerCounter == 0
    {
      imageLayers := [];
      selectedLayer := None;
      layerCounter := 0;
    }

    /** Every entry of `imageLayers` is a different layer with a mesh of its own. */
    predicate Valid()
      reads this
    {
      forall i, j :: 0 <= i < j < |imageLayers| ==>
        imageLayers[i] != imageLayers[j] && imageLayers[i].mesh != imageLayers[j].mesh
    }

    /** The selected layer, as a frame. */
    function Selected(): set<Layer>
      reads this
    {
      if selectedLayer.Some? then {selectedLayer.value} else {}
    }

    /** The layers, as a frame. */
    function Layers(): set<Layer>
      reads this
    {
      set l | l in imageLayers
    }

    /** The selected layer's mesh, as a frame. */
    function SelectedMesh(): set<Mesh>
      reads this
    {
      if selectedLayer.Some? then {selectedLayer.value.mesh} else {}
    }

    /** The meshes of all layers, as a frame. */
    function Meshes(): set<Mesh>
      reads this
    {
      set l | l in imageLayers :: l.mesh
    }
  }
}
