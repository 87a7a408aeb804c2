/** The editor's project-level handlers: saving the form into the selected layer, clearing
    the layers, and loading a saved model. */
module ScriptControls {
  import opened JsMath
  import opened Common
  import opened LayerTypes
  import opened Inputs
  import opened CleanValues
  import opened Layers
  import opened LayerControls

  /** The fields `saveCurrentLayerSettings` copies from the form. */
  function Saved(s: LayerState, panel: Panel): (r: LayerState)
    ensures r.loopAnimation == panel.loopAnimation && r.enableCustomAnimation == panel.enableCustomAnimation
    ensures r.specialEffect == panel.specialEffect && r.animationSpeed == panel.animationSpeed
    ensures r.animationDuration == panel.animationDuration
    ensures r.(loopAnimation := s.loopAnimation, enableCustomAnimation := s.enableCustomAnimation,
               specialEffect := s.specialEffect, animationSpeed := s.animationSpeed,
               animationDuration := s.animationDuration) == s
  {
    s.(loopAnimation := panel.loopAnimation, enableCustomAnimation := panel.enableCustomAnimation,
       specialEffect := panel.specialEffect, animationSpeed := panel.animationSpeed,
       animationDuration := panel.animationDuration)
  }

  /** Saving the form that `selectLayer` just filled in changes nothing. */
  lemma SaveAfterSelect(s: LayerState, mesh: Pose)
    ensures Saved(s, PanelFor(s, mesh)) == s
  {
  }

  /** Saving twice is saving once. */
  lemma SaveIdempotent(s: LayerState, panel: Panel)
    ensures Saved(Saved(s, panel), panel) == Saved(s, panel)
  {
  }

  /** `saveCurrentLayerSettings`: copies loop flag, custom flag, effect, speed and duration
      from the form into the selected layer; without a selection nothing happens. */
  method SaveCurrentLayerSettings(ed: Editor, panel: Panel)
    modifies ed.Selected()
    ensures ed.selectedLayer.Some? ==>
              ed.selectedLayer.value.State() == Saved(old(ed.selectedLayer.value.State()), panel)
  {
    if ed.selectedLayer.None? {
      return;
    }
    var layer := ed.selectedLayer.value;
    layer.loopAnimation := panel.loopAnimation;
    layer.enableCustomAnimation := panel.enableCustomAnimation;
    layer.specialEffect := panel.specialEffect;
    layer.animationSpeed := panel.animationSpeed;
    layer.animationDuration := panel.animationDuration;
  }

  /** `toggleCustomControls`: the keyframe block is shown exactly when the box is checked, and
      the flag is stored on the selected layer. */
  method ToggleCustomControls(ed: Editor, panel: Panel) returns (customControlsShown: bool)
    modifies ed.Selected()
    ensures customControlsShown == panel.enableCustomAnimation
    ensures ed.selectedLayer.Some? ==>
              ed.selectedLayer.value.State()
              == old(ed.selectedLayer.value.State()).(enableCustomAnimation := panel.enableCustomAnimation)
  {
    customControlsShown := panel.enableCustomAnimation;
    if ed.selectedLayer.Some? {
      ed.selectedLayer.value.enableCustomAnimation := panel.enableCustomAnimation;
    }
  }

  /** `clearAllLayers`: stops every layer's handle, empties the list and clears the
      selection. */
  method ClearAllLayers(ed: Editor)
    requires ed.Valid()
    modifies ed, ed.Layers()
    ensures ed.Valid()
    ensures ed.imageLayers == [] && ed.selectedLayer == None && ed.layerCounter == old(ed.layerCounter)
    ensures forall l :: l in old(ed.imageLayers) ==> l.State() == old(l.State()).(animation := None)
  {
    var layers := ed.imageLayers;
    var i := 0;
    while i < |layers|
      invariant 0 <= i <= |layers| && ed.imageLayers == layers
      invariant forall j :: 0 <= j < i ==> layers[j].State() == old(layers[j].State()).(animation := None)
      invariant forall j :: i <= j < |layers| ==> layers[j].State() == old(layers[j].State())
      modifies ed.Layers()
    {
      var layer := layers[i];
      if layer.animation.Some? {
        layer.Stop();
      }
      i := i + 1;
    }
    ed.imageLayers := [];
    ed.selectedLayer := None;
  }

  /** One entry of a saved model's `layers`: the mesh's pose (rotation in degrees), the
      layer record, and whether its `imageData` decodes as an image. */
  datatype LayerData = LayerData(
    id: int, name: string, imageLoads: bool,
    position: Vec3, rotation: Vec3, scale: Vec3, opacity: real,
    originalPosition: Vec3, originalRotation: Vec3, originalScale: Vec3, originalOpacity: real,
    enableCustomAnimation: bool, specialEffect: string, animationSpeed: real,
    animationDuration: NonZero, loopAnimation: bool,
    customAnimation: CustomAnimation, specialEffectSettings: EffectSettings)

  /** The parts of a saved model `loadModel` checks before touching anything. */
  datatype ModelData = ModelData(version: JsValue, layers: Option<seq<LayerData>>)

  /** `!modelData || !modelData.version || !modelData.layers` fails: a model needs a truthy
      version and a layers array (an empty array is truthy). */
  predicate ValidModel(modelData: Option<ModelData>)
  {
    modelData.Some? && ValueTruthy(modelData.value.version) && modelData.value.layers.Some?
  }

  /** The record a loaded layer gets: every field copied as saved (the `original*` values
      as they are), with no handle. */
  function LoadedState(d: LayerData): (s: LayerState)
    ensures s.animation == None && s.originalRotation == d.originalRotation
    ensures s.name == d.name && s.specialEffect == d.specialEffect && s.loopAnimation == d.loopAnimation
  {
    LayerState(d.name, d.originalPosition, d.originalRotation, d.originalScale, d.originalOpacity,
               None, d.enableCustomAnimation, d.specialEffect, d.animationSpeed, d.animationDuration,
               d.loopAnimation, d.customAnimation, d.specialEffectSettings)
  }

  /** The pose a loaded layer's mesh gets: the saved rotation is read as degrees and turned
      into radians, the rest is copied. */
  function LoadedPose(d: LayerData): (p: Pose)
    ensures p.position == d.position && p.scale == d.scale && p.opacity == d.opacity
    ensures RadToDeg(p.rotation.x) == d.rotation.x && RadToDeg(p.rotation.y) == d.rotation.y
            && RadToDeg(p.rotation.z) == d.rotation.z
  {
    DegRadInverse(d.rotation.x, 0.0);
    DegRadInverse(d.rotation.y, 0.0);
    DegRadInverse(d.rotation.z, 0.0);
    Pose(d.position, Vec3(DegToRad(d.rotation.x), DegToRad(d.rotation.y), DegToRad(d.rotation.z)),
         d.scale, d.opacity)
  }

  /** `loadLayerFromData`: when the image decodes, a new layer with the saved id and record on
      a fresh mesh at the saved pose is appended; when it does not, the promise rejects
      (`ok` false) and nothing changes. */
  method LoadLayerFromData(ed: Editor, d: LayerData) returns (ok: bool)
    requires ed.Valid()
    modifies ed
    ensures ed.Valid()
    ensures ok == d.imageLoads
    ensures !ok ==> ed.imageLayers == old(ed.imageLayers)
    ensures ok ==> |ed.imageLayers| == |old(ed.imageLayers)| + 1
                   && ed.imageLayers[..|old(ed.imageLayers)|] == old(ed.imageLayers)
    ensures ok ==> var l := ed.imageLayers[|ed.imageLayers| - 1];
                   fresh(l) && fresh(l.mesh) && l.id == d.id
                   && l.State() == LoadedState(d) && l.mesh.Current() == LoadedPose(d)
    ensures ed.selectedLayer == old(ed.selectedLayer) && ed.layerCounter == old(ed.layerCounter)
  {
    if !d.imageLoads {
      return false;
    }
    var layer := new Layer(d.id, LoadedState(d));
    layer.mesh.SetPose(LoadedPose(d));
    ed.imageLayers := ed.imageLayers + [layer];
    ok := true;
  }

  /** What `loadModel` ends in: the format check fails before anything is touched, an image
      fails to load after the layers before it were added, or every layer loads. */
  datatype LoadOutcome = InvalidFormat | ImageFailed(index: nat) | Loaded

  /** The loop of `loadModel` over the saved layers, on a cleared editor: it adds the
      layers in order and stops at the first image that fails to load, whose index it
      returns. */
  method LoadLayers(ed: Editor, data: seq<LayerData>) returns (failed: Option<nat>)
    requires ed.Valid() && ed.imageLayers == [] && ed.selectedLayer == None
    modifies ed
    ensures ed.Valid() && ed.selectedLayer == None && ed.layerCounter == old(ed.layerCounter)
    ensures failed.Some? ==> failed.value < |data| && !data[failed.value].imageLoads
    ensures var n := if failed.Some? then failed.value else |data|;
            && n <= |data| && |ed.imageLayers| == n
            && (forall k :: 0 <= k < n ==> data[k].imageLoads)
            && (forall k :: 0 <= k < n ==>
                  var l := ed.imageLayers[k];
                  l.id == data[k].id && l.State() == LoadedState(data[k])
                  && l.mesh.Current() == LoadedPose(data[k]))
  {
    var i := 0;
    while i < |data|
      invariant 0 <= i <= |data| && ed.Valid()
      invariant |ed.imageLayers| == i && ed.selectedLayer == None
      invariant ed.layerCounter == old(ed.layerCounter)
      invariant forall k :: 0 <= k < i ==> data[k].imageLoads
      invariant forall k :: 0 <= k < i ==>
                  var l := ed.imageLayers[k];
                  l.id == data[k].id && l.State() == LoadedState(data[k])
                  && l.mesh.Current() == LoadedPose(data[k])
    {
      ghost var before := ed.imageLayers;
      var ok := LoadLayerFromData(ed, data[i]);
      if !ok {
        return Some(i);
      }
      forall k | 0 <= k < i + 1
        ensures var l := ed.imageLayers[k];
                l.id == data[k].id && l.State() == LoadedState(data[k])
                && l.mesh.Current() == LoadedPose(data[k])
      {
        if k < i {
          assert ed.imageLayers[k] == ed.imageLayers[..i][k] == before[k];
        }
      }
      i := i + 1;
    }
    return None;
  }

  /** `loadModel`, for its layers: after the format check it clears the editor, then loads the
      layers one at a time until one image fails; when all load, the first layer is
      selected. A model that fails the check is rejected before anything is touched. The
      layer counter is never written, so a later `addImageLayer` numbers on from where it
      was, whatever ids the loaded layers carry. Project name, background, camera, timeline and audio restore are not part
      of this model. */
  method LoadModel(ed: Editor, modelData: Option<ModelData>) returns (outcome: LoadOutcome)
    requires ed.Valid()
    modifies ed, ed.Layers()
    ensures ed.Valid()
    ensures outcome.InvalidFormat? <==> !ValidModel(modelData)
    ensures ed.layerCounter == old(ed.layerCounter)
    ensures outcome.InvalidFormat? ==>
              ed.imageLayers == old(ed.imageLayers) && ed.selectedLayer == old(ed.selectedLayer)
              && forall l :: l in old(ed.imageLayers) ==> l.State() == old(l.State())
    ensures !outcome.InvalidFormat? ==>
              forall l :: l in old(ed.imageLayers) ==> l.State() == old(l.State()).(animation := None)
    ensures ValidModel(modelData) ==>
              var data := modelData.value.layers.value;
              var n := if outcome.ImageFailed? then outcome.index else |data|;
              && (outcome.Loaded? <==> forall k :: 0 <= k < |data| ==> data[k].imageLoads)
              && (outcome.ImageFailed? ==> outcome.index < |data| && !data[outcome.index].imageLoads)
              && n <= |data| && |ed.imageLayers| == n
              && (forall k :: 0 <= k < n ==> data[k].imageLoads)
              && (forall k :: 0 <= k < n ==>
                    var l := ed.imageLayers[k];
                    l.id == data[k].id && l.State() == LoadedState(data[k])
                    && l.mesh.Current() == LoadedPose(data[k]))
              && ed.selectedLayer == (if outcome.Loaded? && n > 0 then Some(ed.imageLayers[0]) else None)
  {
    if !ValidModel(modelData) {
      return InvalidFormat;
    }
    var data := modelData.value.layers.value;
    ClearAllLayers(ed);
    var failed := LoadLayers(ed, data);
    if failed.Some? {
      return ImageFailed(failed.value);
    }
    if |ed.imageLayers| > 0 {
      var _ := SelectLayer(ed, ed.imageLayers[0]);
    }
    outcome := Loaded;
  }
}
