# AR image-layer editor: a Dafny model of its animation and audio core

The editor stacks image layers in a Three.js scene and gives each layer an animation: a
keyframe blend from a start to an end pose, a named special effect on top, or both. It then
exports a standalone AR page that replays the layers and the audio tracks when the marker is
seen. This project models the parts of the JavaScript that compute and change state, and
proves what they promise. Numbers are Dafny `real`. `Math.sin`, `Math.cos` and `Math.pow` are
an uninterpreted `MathLib` parameter shared by every evaluator, and `Math.PI` is a positive
constant. JavaScript's `%` is the truncating remainder `JsMod`. A clock reading (`Date.now()`)
is a `now` parameter, and every timer callback is a method the caller runs.

Modules, following the source files:

- `JsMath`, `Common`, `LayerTypes`, `Inputs`, `Timeline`: numbers, `findIndex`/`splice`, the
  layer record, the form inputs, the timeline clock and audio elements.
- `EffectMath`, `LiveEvaluator`, `Layers`: `createAnimationForLayer` in `js/layerControls.js`
  (progress, ease, keyframe blend, the effect `switch`). A `Layer` class has the layer's fields
  and its `Mesh`. An `Editor` class holds `imageLayers`, `selectedLayer` and `layerCounter`.
- `LayerControls`, `AnimationControls`, `ButtonControls`, `ScriptControls`, `CleanValues`,
  `FileNames`: the editor's handlers in `js/layerControls.js`, `js/animationControls.js`,
  `js/buttonControls.js`, `js/scriptControls.js` and `js/script.js`.
- `ExportedPlanes`, `ControlsExport`, `LegacyExport`, `EvaluatorAgreement`: the per-layer
  attributes that both page generators write. Also the embedded evaluators of
  `js/generateHtmlControls.js` (the controls page) and `js/generateHtml.js` (the legacy page),
  and where they agree with the live one and where they provably differ.
- `TrackLists`, `AudioControls`, `AudioScript`, `ExportTimeline`, `LegacyAudio`: the audio
  tracks of `js/audioControls.js` and `js/audioScript.js`, the controls page's timeline, and the
  legacy page's sequential player.

Where the source's objects are changed in place, the model is a class whose methods state the
whole new state. Audio track records are values in a `seq` field. A method is proved against a
specification function, and the properties are proved about that function.

## Model

| member | source | states |
|---|---|---|
| JsMath.Abs | js/layerControls.js:340 | `Math.abs` is non-negative and is `x` or `-x` |
| JsMath.Max | js/audioScript.js:235 | `Math.max` of two numbers is at least both and equals one of them |
| JsMath.Trunc | js/layerControls.js:212 | truncation toward zero: the integer part, below `x` for non-negative `x` and above it for negative `x` |
| JsMath.JsModRange | js/layerControls.js:212 | `elapsed % duration` of a non-negative elapsed time and positive duration lies in `[0, duration)` |
| JsMath.JsModSmall | js/layerControls.js:212 | a non-negative dividend below the divisor is its own remainder |
| JsMath.JsModPeriodic | js/layerControls.js:212 | adding one whole duration leaves the remainder unchanged |
| JsMath.DegToRad | js/animationControls.js:182-184 | `deg * Math.PI / 180` converts back to `deg` |
| JsMath.DegRadInverse | js/layerControls.js:143-145 | radians-to-degrees and degrees-to-radians are inverse in both directions |
| JsMath.DegRadAdditive | js/generateHtmlControls.js:428 | both conversions distribute over sums |
| JsMath.Fixed2Close | js/generateHtmlControls.js:116-119 | `toFixed(2)` moves a value by at most 0.005 |
| JsMath.Fixed2Exact | js/generateHtmlControls.js:116-119 | a value with at most two decimals is kept by `toFixed(2)` |
| Common.FindFirst | js/layerControls.js:107 | `findIndex`: the index of the first match, and `None` exactly when nothing matches |
| Common.FindFirstAt | js/audioControls.js:436 | the search returns `i` when `i` is the first matching index |
| Common.RemoveAt | js/layerControls.js:112 | `splice(i, 1)`: one element shorter, the prefix before `i` kept and the rest shifted down by one |
| Common.Pause | js/audioControls.js:270 | playback stops; position, loop, volume and duration are kept |
| Common.NewAudio | js/audioControls.js:14-17 | a new element is not playing, not looping, at 0, with volume 0.8 and the given duration |
| Timeline.StoppedClock | js/audioControls.js:253-260 | `stopTimeline` on the clock: not playing, at 0, no frame pending, duration and loop kept |
| LayerTypes.ParseEffect | js/layerControls.js:255-349 | `'none'` is exactly the name that selects no effect, and a name that is neither `'none'` nor one of the fourteen case labels matches no case |
| EffectMath.EaseLowHalf | js/layerControls.js:218 | strictly inside the first half the ease lies in (0, 1/2) |
| EffectMath.EaseHighHalf | js/layerControls.js:218 | on the second half, `t = 1 - u`, the ease is `1 - 2u²`, in [1/2, 1] |
| EffectMath.EaseNearEnd | js/layerControls.js:218 | strictly before the end the ease stays below 1 |
| EffectMath.EaseInOutRange | js/layerControls.js:218 | the ease maps 0 to 0, 1/2 to 1/2, 1 to 1, and [0, 1] into [0, 1] |
| EffectMath.EaseInOutSymmetric | js/layerControls.js:218 | `ease(1 - t) == 1 - ease(t)` on [0, 1] |
| EffectMath.EaseInOutMonotone | js/layerControls.js:218 | the ease never decreases on [0, 1] |
| EffectMath.ElasticEase | js/layerControls.js:301-308 | the elastic curve is 0 at 0 and 1 at 1 by its own guards |
| EffectMath.LerpBounds | js/layerControls.js:239-251 | the keyframe blend is the start at 0, the end at 1, and stays between them on [0, 1] |
| EffectMath.NoEffectIsIdentity | js/layerControls.js:255-256 | with effect 'none' or an unlisted name the switch leaves the pose unchanged |
| EffectMath.ElapsedOnlyForPendulum | js/layerControls.js:278-281 | only pendulumMove reads the elapsed time; every other effect gives the same pose for any elapsed value |
| EffectMath.TargetGuard | js/layerControls.js:262-264 | with the custom flag off, swing/zigzag/wave/elastic add exactly their target displacement (stated per effect). Every other effect, and rotation, scale and opacity, ignore the flag |
| EffectMath.SlideOffsets | js/layerControls.js:315-326 | slides add ±slideDistance·(1−eased) on one axis: the full distance at eased 0 and nothing at eased 1. Up mirrors down and right mirrors left |
| EffectMath.FadeScaleRotate | js/layerControls.js:327-338 | fadeIn multiplies opacity by eased, and scaleIn multiplies all three scales by eased (both identity at eased 1). rotate adds eased·2π·rotateCycles radians |
| EffectMath.EffectSwitch | js/layerControls.js:255-349 | the in-place `+=`/`*=` updates of the `final*` variables end at the effect function's pose |
| EffectMath.DecayingCase | js/layerControls.js:257-313 | the swing, zigzag, pendulum, wave and elastic cases, in place, equal the effect function |
| EffectMath.SlideCase | js/layerControls.js:315-326 | the four slide cases, in place, equal the effect function |
| EffectMath.ShapeCase | js/layerControls.js:327-348 | the fadeIn, scaleIn, rotate, bounce and spiral cases, in place, equal the effect function |
| LiveEvaluator.LiveProgressRange | js/layerControls.js:211-216 | progress of a running cycle lies in [0, 1); past the end of a non-looping one it is 1 |
| LiveEvaluator.LiveProgressWraps | js/layerControls.js:212 | a looping animation's progress wraps exactly one duration later |
| LiveEvaluator.LiveProgressAtBoundary | js/layerControls.js:214 | at exactly `elapsed == duration` the pin does not apply (`>`), so progress is 0 |
| LiveEvaluator.LiveHoldsEndPose | js/layerControls.js:211-219 | past the end of a non-looping animation the pose is time-independent for every effect but pendulumMove |
| LiveEvaluator.LiveLoopRepeats | js/layerControls.js:211-212 | a looping animation shows the same pose one cycle later, for every effect but pendulumMove |
| LiveEvaluator.LiveCustomBlend | js/layerControls.js:222-255 | custom on, no effect: x, y, z, uniform scale and opacity are the lerp, rotZ is the degree lerp·π/180, and rotX and rotY are the originals |
| LiveEvaluator.LiveBlendEnds | js/layerControls.js:239-251 | the blend gives the start keyframe at eased 0 and the end keyframe at eased 1 |
| LiveEvaluator.LiveBounceScenario | js/layerControls.js:339-342 | a concrete bounce sample: progress 1/8, eased 1/32, y raised by abs(sin(π/8))·bounceHeight |
| LiveEvaluator.LiveKeyframeScenario | js/layerControls.js:239 | a concrete blend: x from 0 to 10 at progress 1/2 gives 5 |
| Layers.Mesh.SetPose | js/layerControls.js:353-356 | the mesh shows exactly the pose written |
| Layers.Mesh.constructor | js/layerControls.js:28-29 | a new mesh is at the origin, unrotated, at scale 1 and fully opaque |
| Layers.DefaultLayerState | js/layerControls.js:31-70 | a new layer has no handle and nothing to animate (custom animation off, effect `'none'`), and both keyframes of its custom animation are the rest keyframe |
| Layers.ConfigOf | js/layerControls.js:201-205 | what `update` reads from the layer: the same custom flag and effect, and a base pose made of the `original*` fields |
| Layers.CreateAnimation | js/layerControls.js:196-209 | no handle exactly when custom animation is off and the effect is 'none'; otherwise a handle started at `now` that captures duration, speed and loop |
| Layers.Layer.constructor | js/layerControls.js:31-71 | the layer carries the given id and record on a fresh mesh at the default pose |
| Layers.Layer.Stop | js/layerControls.js:209 | `stop()` empties the layer's animation slot and changes nothing else |
| Layers.Layer.Update | js/layerControls.js:210-357 | the step-by-step `final*` computation writes the live pose of the layer's current configuration to the mesh |
| Layers.Editor.constructor | js/scriptControls.js:2-4 | the editor starts with no layers, no selection and the counter at 0 |
| LayerControls.PanelFor | js/layerControls.js:135-190 | the inputs `selectLayer` fills in, with the rotation read back in degrees (converting back to the mesh's radians) |
| LayerControls.SelectLayer | js/layerControls.js:122-194 | the layer becomes the selection and the panel shows its fields; no layer changes |
| LayerControls.ImageLoaded | js/layerControls.js:13-78 | the next id, the file's name and the default record on a fresh mesh at the default pose, appended and selected; the counter goes up by one |
| LayerControls.AddImageLayer | js/layerControls.js:2-83 | no file only alerts and changes nothing. Otherwise one layer per image that decodes, in the order the `onload` handlers run, with consecutive ids in that order; a file that fails to decode adds no layer and takes no id; the old layers are kept and the last layer loaded is selected |
| LayerControls.ImagesLoaded | js/layerControls.js:11-78 | the `onload` handlers that run, in load order: ids count up from the counter in that order, each layer takes its file's name and the default record, the old layers are kept and the last one loaded is selected |
| LayerControls.DeleteLayer | js/layerControls.js:106-119 | removes the first layer with the id, keeping the others in order. The selection is cleared only when it has that id. An absent id changes nothing |
| LayerControls.DeleteRemovesExactlyId | js/layerControls.js:106-119 | with distinct ids, afterwards no layer has the id and every other layer is still present |
| AnimationControls.EffectVisibility | js/animationControls.js:6-52 | 'none' hides the panel. Otherwise at most one block is shown; the four slides share one block, and elastic, fadeIn and scaleIn show none |
| AnimationControls.UpdateSpecialEffect | js/animationControls.js:2-57 | returns that visibility and stores the effect on the selected layer, if any |
| AnimationControls.UpdateCustomValues | js/animationControls.js:128-163 | the selected layer's keyframes become the twelve inputs; nothing else changes |
| AnimationControls.UpdateControlValues | js/animationControls.js:88-102 | the selected layer takes the keyframes of the inputs; nothing else changes |
| AnimationControls.UpdateSpecialEffectSettings | js/animationControls.js:60-85 | the selected layer takes all nineteen settings as parsed, with no clamping, and then the keyframes; nothing else changes |
| AnimationControls.DegToRad3 | js/animationControls.js:182-184 | each component converts back to the degree input (times 180/π) |
| AnimationControls.UpdatePosition | js/animationControls.js:166-176 | the mesh and `originalPosition` both take the input triple, and the keyframes are re-read; a layer at rest stays at rest; only the selection and its mesh may change |
| AnimationControls.UpdateRotation | js/animationControls.js:179-189 | the mesh and `originalRotation` both take the inputs converted to radians (degrees·π/180), and the keyframes are re-read; a layer at rest stays at rest |
| AnimationControls.UpdateTransparency | js/animationControls.js:192-199 | the material and `originalOpacity` both take the alpha input, and the keyframes are re-read; a layer at rest stays at rest |
| AnimationControls.UpdateScale | js/animationControls.js:202-209 | the mesh and `originalScale` both take the uniform scale x=y=z, and the keyframes are re-read; a layer at rest stays at rest |
| AnimationControls.UpdateAnimationSpeed | js/animationControls.js:212-216 | the selected layer takes the speed input (and the keyframes); nothing else changes |
| AnimationControls.UpdateAnimationDuration | js/animationControls.js:219-223 | the selected layer takes the duration input (and the keyframes); nothing else changes |
| AnimationControls.SelectShowsEdits | js/layerControls.js:140-147 | selecting a layer after the pose setters shows the values just typed, with degrees round-tripped |
| AnimationControls.TimingNeedsReapply | js/layerControls.js:202-204 | a running handle keeps the speed and duration it captured; only a new handle carries the new ones |
| AnimationControls.SettingsReachRunningHandle | js/layerControls.js:205 | new effect settings reach a running handle at its next tick |
| AnimationControls.Animate | js/animationControls.js:226-236 | every layer with a handle draws its live pose for the same `currentTime`; the mesh of a layer without one is unchanged; only meshes may change |
| ButtonControls.Applied | js/buttonControls.js:2-14 | the record `applyAnimation` leaves: the saved form fields, settings and keyframes, and a handle from that record |
| ButtonControls.ApplyIdempotent | js/buttonControls.js:2-14 | applying the same form twice at the same moment is applying it once |
| ButtonControls.AppliedDrawsForm | js/buttonControls.js:13 | after applying, every later sample draws the live pose of the form's animation |
| ButtonControls.ApplyAnimation | js/buttonControls.js:2-14 | without a selection nothing happens. Otherwise the old handle is stopped and the new one stored; other layers are untouched |
| ButtonControls.Previewed | js/buttonControls.js:17-24 | the record the preview leaves as written equals plain applying: `saveCurrentLayerSettings` copies the loop box back over the cleared flag |
| ButtonControls.PreviewLoopsWhenBoxChecked | js/buttonControls.js:20-24 | with the loop box checked the preview's handle loops, so the pose one cycle later equals the current one |
| ButtonControls.PreviewAnimation | js/buttonControls.js:17-30 | as written: remembers the flag, clears it and applies; returns the flag for the timer |
| ButtonControls.PreviewedOnce | js/buttonControls.js:16-24 | the intended preview record: a handle exactly when something animates, with loop off, the loop flag off, and otherwise what applying the form gives |
| ButtonControls.PreviewOnceEnds | js/buttonControls.js:16-29 | the intended preview does not loop and holds the end pose after the duration (every effect but pendulumMove) |
| ButtonControls.PreviewAnimationOnce | js/buttonControls.js:17-30 | the corrected preview: the handle is built with the loop flag off, and the other form fields are kept |
| ButtonControls.PreviewRestore | js/buttonControls.js:27-29 | the timer writes the remembered flag into whichever layer is selected then; with none it throws |
| ButtonControls.StopAnimation | js/buttonControls.js:33-36 | the selected layer's handle is dropped; with no selection or no handle nothing changes |
| ButtonControls.Replayed | js/buttonControls.js:41-49 | an animated layer gets a new handle from its own record; any other layer keeps its handle |
| ButtonControls.ReplayAfterApply | js/buttonControls.js:39-51 | replaying an applied layer at the moment it was applied changes nothing |
| ButtonControls.PlayAllAnimations | js/buttonControls.js:39-51 | every layer is replayed at `now`; the list is untouched |
| ButtonControls.StopAllAnimations | js/buttonControls.js:54-60 | every layer's handle is null afterwards and nothing else changes |
| ScriptControls.Saved | js/scriptControls.js:42-50 | exactly loop, custom flag, effect, speed and duration are copied from the form |
| ScriptControls.SaveAfterSelect | js/scriptControls.js:42-50 | saving the form `selectLayer` just filled in changes nothing |
| ScriptControls.SaveIdempotent | js/script.js:95-103 | saving twice is saving once |
| ScriptControls.SaveCurrentLayerSettings | js/scriptControls.js:42-50 | the five fields go into the selected layer; nothing happens without a selection |
| ScriptControls.ToggleCustomControls | js/scriptControls.js:31-39 | the keyframe block is shown exactly when the box is checked, and the flag is stored on the selection |
| ScriptControls.ClearAllLayers | js/scriptControls.js:844-858 | every handle is stopped, the list is empty and the selection is null |
| ScriptControls.LoadedState | js/scriptControls.js:738-755 | a loaded layer has no handle and keeps the saved name, effect, loop flag and `originalRotation` as stored (not converted) |
| ScriptControls.LoadedPose | js/scriptControls.js:724-735 | the saved rotation is degrees turned into radians; position, scale and opacity are copied |
| ScriptControls.LoadLayerFromData | js/scriptControls.js:698-778 | a decoded image appends a layer with the saved id and record at the saved pose; a failed one rejects and changes nothing |
| ScriptControls.LoadLayers | js/scriptControls.js:668-670 | adds the saved layers in order and stops at the first failing image, returning its index; the selection stays empty and the layer counter is unchanged |
| ScriptControls.LoadModel | js/scriptControls.js:614-695 | the layer counter is never changed. Data without a truthy `version` or a `layers` array is rejected and changes no layer list, layer record or selection. Otherwise every old handle is stopped and the saved layers are loaded in order up to the first failing image; the first is selected only when all load |
| CleanValues.CleanValueCases | js/scriptControls.js:340-355 | the stored input wins when present; without one a non-number, or a number with at most six decimals, comes back unchanged |
| CleanValues.RoundMicroSpec | js/scriptControls.js:351 | rounding moves a number by at most half a millionth and leaves at most six decimals |
| CleanValues.CleanValueIdempotent | js/scriptControls.js:340-355 | cleaning a cleaned value changes nothing; a cleaned number is within half a millionth |
| CleanValues.CleanValueExample | js/scriptControls.js:349-351 | 0.30000000000000004 is cleaned to 0.3 |
| CleanValues.GetCleanTransform | js/scriptControls.js:358-364 | `getCleanValue` on each of x, y and z; a missing stored transform counts as `undefined` |
| FileNames.ExtensionUnique | js/scriptControls.js:323 | the extension pattern matches at most once, at the last dot |
| FileNames.ExtensionStart | js/scriptControls.js:323 | the position where the extension pattern matches, and none exactly when it matches nowhere |
| FileNames.StripExtension | js/scriptControls.js:323 | drops the final `.ext` and only that |
| FileNames.RemoveDisallowedSpec | js/scriptControls.js:325 | only kept characters remain, each kept character occurs as often as in the input, and an input of kept characters is unchanged |
| FileNames.DropSpaces | js/scriptControls.js:326 | a suffix of the input that does not start with white space |
| FileNames.ReplaceSpaceRunsNameChars | js/scriptControls.js:326 | on filtered input, replacing white-space runs leaves only name characters |
| FileNames.ReplaceSpaceRunsIdentity | js/script.js:212 | a string without white space is unchanged |
| FileNames.DropUnderscores | js/scriptControls.js:327 | a suffix of the input that does not start with `_` |
| FileNames.CollapseNoDouble | js/scriptControls.js:327 | the collapsed name has no `__` and keeps the first character |
| FileNames.CollapseNameChars | js/scriptControls.js:327 | collapsing keeps a name-character string one |
| FileNames.CollapseIdentity | js/script.js:213 | a string without `__` is unchanged |
| FileNames.TrimSpec | js/scriptControls.js:328 | `trim` removes white space at both ends and keeps a name unchanged |
| FileNames.SanitizedIsClean | js/scriptControls.js:322-329 | the output has only [A-Za-z0-9_-] and no `__` |
| FileNames.SanitizeIdempotent | js/script.js:208-215 | sanitizing twice is sanitizing once |
| FileNames.StripExtensionExamples | js/scriptControls.js:323 | a trailing dot, or a slash after the last dot, is no extension; only the last extension goes |
| FileNames.RemoveDisallowedExample | js/scriptControls.js:323-325 | the dots left by an earlier extension are deleted by the filter |
| ExportedPlanes.SerializeLayers | js/generateHtmlControls.js:93-132 | one plane per layer in order, each the serialization of that layer's id and record |
| ExportedPlanes.SettingsRead | js/generateHtmlControls.js:362-377 | the settings a page uses: the parsed attribute, or a fallback equal to the new-layer defaults |
| ExportedPlanes.TimersSpec | js/generateHtmlControls.js:349-381 | exactly the qualifying planes get an interval, one each in document order, each capturing its own plane |
| ExportedPlanes.SerializedReadBack | js/generateHtmlControls.js:100-131 | reading a plane back gives the layer's position and scale, its rotation in degrees and two-decimal opacity, and a handle like the live one |
| ExportedPlanes.DisplayedNearOriginal | js/generateHtmlControls.js:116-119 | the displayed attributes are within 0.005 of the layer's pose (rotation in degrees) |
| ExportedPlanes.PlaneElement.constructor | js/generateHtmlControls.js:115-119 | the element displays its `position`, `rotation`, `scale` and material attributes |
| ControlsExport.ControlsPage.constructor | js/generateHtmlControls.js:142 | the page holds the given planes and no intervals |
| ControlsExport.ControlsPage.Attributes | js/generateHtmlControls.js:353-377 | the attributes of each plane, in document order |
| ControlsExport.ControlsPage.StopAll | js/generateHtmlControls.js:541-562 | every interval is cleared and every plane goes back to its original pose with rotation in degrees |
| ControlsExport.ControlsPage.PlayAll | js/generateHtmlControls.js:349-356 | stops all first, then one interval per plane with custom on or effect not 'none' |
| ControlsExport.ControlsPage.Tick | js/generateHtmlControls.js:381-534 | past the end of a non-looping animation the interval is cleared and nothing is written; otherwise the frame is written |
| ControlsExport.ComputeFrame | js/generateHtmlControls.js:382-532 | the step-by-step frame equals the page's frame function, from the original attributes, in degrees |
| LegacyExport.LegacyPage.constructor | js/generateHtml.js:130 | the page holds the given planes and no intervals |
| LegacyExport.LegacyPage.Attributes | js/generateHtml.js:306-331 | the attributes of each plane, in document order |
| LegacyExport.LegacyPage.StopAll | js/generateHtml.js:495-498 | every interval is cleared; unlike the controls page, no plane is reset |
| LegacyExport.LegacyPage.PlayAll | js/generateHtml.js:303-313 | one interval per qualifying plane, in document order |
| LegacyExport.LegacyPage.Tick | js/generateHtml.js:335-488 | past the end of a non-looping animation the interval is cleared; otherwise the plane shows the frame built from what it showed |
| LegacyExport.ComputeLegacyFrame | js/generateHtml.js:336-486 | the step-by-step frame equals the legacy frame function of the displayed pose (opacity taken as 1) |
| LegacyExport.LegacySlideDrifts | js/generateHtml.js:348-357 | two ticks of slideDown add both offsets: the plane drifts instead of settling |
| LegacyExport.LegacyCustomNoDrift | js/generateHtml.js:361-378 | with custom on, the frame depends on the displayed pose only through its x and y rotations |
| LegacyExport.LegacyOpacity | js/generateHtml.js:358 | custom off: fadeIn writes the eased progress itself, and other effects leave the displayed opacity |
| EvaluatorAgreement.UnitsAgree | js/generateHtmlControls.js:434-526 | the switch run in radians and in degrees from matching poses gives the same position and scale, the same z turn up to the unit, kept x and y rotations, and the fade opacity; except waveToTarget |
| EvaluatorAgreement.TurnsAgree | js/generateHtmlControls.js:437-441 | the turning effects add the same angle in either unit |
| EvaluatorAgreement.StillAgree | js/generateHtmlControls.js:434-526 | the non-turning effects leave both rotations alone and agree elsewhere |
| EvaluatorAgreement.FixedAgree | js/generateHtmlControls.js:434-526 | zigzag, elastic, bounce, spiral and no effect move or scale both poses alike |
| EvaluatorAgreement.TargetMovesAgree | js/generateHtmlControls.js:434-526 | zigzag and elastic add the same target move in either evaluator |
| EvaluatorAgreement.SlidesAgree | js/generateHtmlControls.js:434-526 | slides move both poses by the same offset |
| EvaluatorAgreement.GrowAgree | js/generateHtmlControls.js:434-526 | fadeIn and scaleIn scale alike in either unit |
| EvaluatorAgreement.WaveTiltDiffers | js/layerControls.js:286 | the wave adds `waveY·0.2` radians live but degrees on the pages; they agree only where `waveY` is 0 |
| EvaluatorAgreement.ScaledRoundingClose | js/generateHtmlControls.js:119 | rounding the opacity and scaling by eased ∈ [0, 1] stays within 0.005 |
| EvaluatorAgreement.PlaneOfMatches | js/generateHtmlControls.js:353-359 | a serialized layer and its interval carry the layer's configuration |
| EvaluatorAgreement.ControlsBlendAgrees | js/generateHtmlControls.js:409-428 | the controls blend equals the live one, in degrees, with the base z rotation added when custom is on |
| EvaluatorAgreement.ControlsFrameSplit | js/generateHtmlControls.js:381-532 | both frames are the switch applied to related blended poses |
| EvaluatorAgreement.ControlsPoseAgrees | js/generateHtmlControls.js:381-532 | the whole controls frame against the live pose, for every effect but waveToTarget |
| EvaluatorAgreement.ControlsOpacityClose | js/generateHtmlControls.js:412 | custom off: the page opacity is within 0.005 of the live one |
| EvaluatorAgreement.ControlsOpacities | js/generateHtmlControls.js:412-427 | the two opacities, in terms of the eased progress and the starting opacities |
| EvaluatorAgreement.EffectOpacity | js/layerControls.js:327-328 | only fadeIn changes opacity, by the eased factor |
| EvaluatorAgreement.OpacityGap | js/generateHtmlControls.js:412 | starting from the rounded opacity keeps the result within 0.005 |
| EvaluatorAgreement.ControlsAgreesWithLive | js/generateHtmlControls.js:381-532 | a qualifying layer replayed on the controls page writes the live position and scale and rotations in degrees, adding the base z rotation when custom is on; opacity equal or within 0.005 |
| EvaluatorAgreement.PagesClearWhereLivePins | js/generateHtmlControls.js:386-389 | past a non-looping end the live handle pins progress 1 while both pages clear and write nothing |
| EvaluatorAgreement.LegacyBlendAgrees | js/generateHtml.js:361-378 | the legacy blend equals the live one, with the z rotation in degrees and nothing added |
| EvaluatorAgreement.LegacyPoseAgrees | js/generateHtml.js:335-486 | legacy page with custom on: the live position, scale, opacity and z in degrees; displayed x and y rotations kept |
| EvaluatorAgreement.LegacyAgreesWithLiveCustom | js/generateHtml.js:335-486 | a custom layer on a freshly loaded legacy plane matches the live frame; x and y rotations within 0.005 |
| TrackLists.SortByOrderSpec | js/audioControls.js:418 | the sort leaves the tracks in ascending play order and is a permutation |
| TrackLists.InsertByOrderSpec | js/audioScript.js:102-105 | inserting into a sorted array keeps it sorted and adds exactly the new element |
| TrackLists.SortedIsKept | js/audioScript.js:105 | sorting an already sorted array leaves it unchanged |
| TrackLists.Mapped | js/audioControls.js:395 | `tracks.map(f)`: same length, element by element |
| TrackLists.SwapKeepsOrders | js/audioControls.js:384-385 | exchanging two tracks' play orders keeps the multiset of orders |
| TrackLists.PermutedMapped | js/audioControls.js:418 | a permutation keeps the multiset of every field |
| TrackLists.MaxOrder | js/audioControls.js:395 | `Math.max(...orders)` is at least every order and equals one |
| TrackLists.UpPair | js/audioControls.js:379-382 | the track with the id and its upper neighbour, as the two `find` calls locate them |
| TrackLists.UpPairSpec | js/audioControls.js:378-383 | the pair is the first track with the id and the first with order one below; none when the id is absent, the order is at most 1, or no neighbour exists |
| TrackLists.DownPair | js/audioControls.js:392-398 | the track with the id and its lower neighbour |
| TrackLists.DownPairSpec | js/audioControls.js:391-399 | the pair is the first track with the id and the first with order one above; none when absent, at the maximum order, or no neighbour exists |
| TrackLists.Retagged | js/audioControls.js:384-385 | only the two retagged tracks change, and only their orders |
| TrackLists.MovedUpIs | js/audioControls.js:378-387 | when the pair is found, moving up is retagging the two tracks and sorting |
| TrackLists.MovedDownIs | js/audioControls.js:391-403 | when the pair is found, moving down is retagging the two tracks and sorting |
| TrackLists.SwapAndSort | js/audioControls.js:384-387 | swapping two orders and sorting keeps the order multiset, holds both and every other track, and is sorted |
| TrackLists.MoveUpSpec | js/audioControls.js:378-389 | moveTrackUp swaps orders with the upper neighbour and re-sorts, keeping every other track; otherwise nothing changes; the order multiset is kept |
| TrackLists.MoveDownSpec | js/audioControls.js:391-405 | moveTrackDown swaps with the lower neighbour and re-sorts; otherwise nothing changes; the order multiset is kept |
| TrackLists.DeleteRemovesExactlyKey | js/audioControls.js:435-451 | with distinct ids, exactly the track with the id is removed, and an absent id removes nothing |
| AudioControls.WithPlayOrder | js/audioControls.js:384 | only the play order changes |
| AudioControls.PlayOrderIsSet | js/audioControls.js:384-385 | writing a play order and reading it back agree, and writing changes nothing else the sort sees |
| AudioControls.NewTracks | js/audioControls.js:11-34 | one record per file, in order |
| AudioControls.NewTracksSpec | js/audioControls.js:19-30 | new tracks get order count+1 onward, start 0, no end or duration, are inactive and silent, and keep the timeline length |
| AudioControls.MaxEndSpec | js/audioControls.js:154-162 | the length is at least 0 and every end, and is 0 or one of the truthy ends |
| AudioControls.MaxEndPermutes | js/audioControls.js:154-162 | the length depends only on the multiset of ends |
| AudioControls.MaxEndIgnoresMissing | js/audioControls.js:158 | tracks without an end add nothing |
| AudioControls.PermutedLength | js/audioControls.js:416-426 | reordering tracks keeps the timeline length |
| AudioControls.Loaded | js/audioControls.js:98-105 | metadata sets the duration, and a missing end becomes start + duration |
| AudioControls.WithSetting | js/audioControls.js:129-146 | 'start' gives max(0, v) and moves an end at or before it to start + duration when known; 'end' gives max(start + 0.1, v) so end > start; other kinds change nothing |
| AudioControls.StopTrack | js/audioControls.js:269-272 | paused, at 0, inactive; timing unchanged |
| AudioControls.Stopped | js/audioControls.js:269-278 | every track stopped, count kept |
| AudioControls.Stepped | js/audioControls.js:326-354 | same count; track k is the stepped track k |
| AudioControls.StepTrackSpec | js/audioControls.js:326-344 | afterwards a track is active iff start ≤ elapsed < end; it toggles only when that changes, and a toggled track is rewound and plays iff active |
| AudioControls.StopSpec | js/audioControls.js:253-287 | after `stopTimeline` the clock is at 0 and stopped with no frame, and every track is inactive, paused and rewound |
| AudioControls.FrameKeepsTracks | js/audioControls.js:289-358 | a frame changes only audio and active flags and keeps the length |
| AudioControls.FrameBeforeEnd | js/audioControls.js:293-354 | before the end the current time is the elapsed time and each track is active iff it sounds |
| AudioControls.FrameStopsAtEnd | js/audioControls.js:318-321 | at or past the end without loop the timeline stops |
| AudioControls.FrameRestartsAtEnd | js/audioControls.js:305-317 | at or past the end with loop the clock restarts at `now` and no track is active or playing |
| AudioControls.PlayedSpec | js/audioControls.js:231-251 | playing stops a running timeline; otherwise, with a positive length, it starts at `now` and activates exactly the tracks sounding at 0 |
| AudioControls.MoveUpKeepsLength | js/audioControls.js:378-389 | moving up keeps the timeline length |
| AudioControls.MoveDownKeepsLength | js/audioControls.js:391-405 | moving down keeps the timeline length |
| AudioControls.AudioEditor.constructor | js/audioControls.js:2-9 | no tracks and the initial timeline: stopped, at 0, length 0, looping |
| AudioControls.AudioEditor.UpdateTimelineDuration | js/audioControls.js:154-166 | the duration becomes the largest truthy end |
| AudioControls.AudioEditor.AddAudioTracks | js/audioControls.js:11-36 | one new track per file, numbered on from the count; the timeline is unchanged because new tracks have no end |
| AudioControls.AudioEditor.MetadataLoaded | js/audioControls.js:98-105 | the track takes `Loaded` and the duration is recomputed |
| AudioControls.EndedTrack | js/audioControls.js:109-118 | when a track's element ends, the track is not playing, its element is paused and at 0, and the timeline flag and the end are kept |
| AudioControls.EndedKeepsLength | js/audioControls.js:109-118 | ending a track keeps the timeline's length |
| AudioControls.EndedStaysSilent | js/audioControls.js:109-118 | a track that ended while active is not restarted by frames inside its window, and becomes inactive once the window is left |
| AudioControls.AudioEditor.Ended | js/audioControls.js:109-118 | the track becomes `EndedTrack` and the timeline is unchanged |
| AudioControls.AudioEditor.UpdateTimelineSettings | js/audioControls.js:123-152 | an unknown id changes nothing; otherwise the first matching track takes the setting and the duration is recomputed |
| AudioControls.AudioEditor.SetLoop | js/audioControls.js:214 | the loop checkbox sets the timeline's loop |
| AudioControls.AudioEditor.ResetTracks | js/audioControls.js:313-317 | every track is stopped |
| AudioControls.AudioEditor.StopTimeline | js/audioControls.js:253-287 | the clock is stopped and every track is stopped |
| AudioControls.AudioEditor.StepTracks | js/audioControls.js:326-354 | each track is stepped at `elapsed` |
| AudioControls.AudioEditor.UpdateTimeline | js/audioControls.js:289-358 | one frame: nothing when not playing; otherwise the end rule and then the step |
| AudioControls.AudioEditor.PlayTimeline | js/audioControls.js:231-251 | stops a running timeline; otherwise starts it and runs the first frame |
| AudioControls.AudioEditor.ReorderTracks | js/audioControls.js:418 | the array is sorted by play order |
| AudioControls.AudioEditor.ReorderAudioDisplay | js/audioControls.js:416-426 | sorted in place and a permutation of the old array |
| AudioControls.AudioEditor.MoveTrackUp | js/audioControls.js:378-389 | the tracks become `MovedUp` of the old ones, and the timeline is unchanged |
| AudioControls.AudioEditor.MoveTrackDown | js/audioControls.js:391-405 | the tracks become `MovedDown` of the old ones, and the timeline is unchanged |
| AudioControls.AudioEditor.DeleteAudioTrack | js/audioControls.js:435-451 | the first track with the id is removed and the duration recomputed; an unknown id changes nothing |
| AudioScript.WithPlayOrder | js/audioScript.js:123-124 | sets the play order and keeps the id |
| AudioScript.NewTracks | js/audioScript.js:2-28 | one record per file |
| AudioScript.AddedSpec | js/audioScript.js:2-28 | adding files adds exactly their records (order count+1 onward, no loop, no timeline mode, not background) and leaves the array sorted |
| AudioScript.AddedPermutes | js/audioScript.js:2-28 | the pushes add exactly the new records: the result is a permutation of old plus new |
| AudioScript.TimeSettingEnd | js/audioScript.js:230-231 | 'end' takes v if v > 0 and otherwise the audio's duration (its length once loaded); other kinds keep the end; only start, end and mode change |
| AudioScript.TimeSettingStart | js/audioScript.js:228-239 | afterwards the start is below a positive end. A start before the end is kept with the mode; one at or past it is replaced by a non-negative start and flips the mode |
| AudioScript.StartBeforeMetadataResets | js/audioScript.js:234-238 | with a `null` end any non-negative start resets to 0 and flips the mode |
| AudioScript.RepeatedStartFlipsBack | js/audioScript.js:238 | the same out-of-range start twice restores the mode |
| AudioScript.EndSettingIdempotent | js/audioScript.js:230-239 | an 'end' setting leaving a positive end is idempotent |
| AudioScript.ToggledSpec | js/audioScript.js:156-187 | starting a non-background track while the background music plays throws at the undefined `fadeBackgroundMusic` and changes nothing; any other toggle flips `isPlaying` and the element, mirrors it into the record for the background track only, and moves the position only on a timeline start |
| AudioScript.ToggledTwice | js/audioScript.js:156-187 | toggling twice restores the track and the background record, except that a non-background track paused while the background music plays cannot be restarted |
| AudioScript.ClearedBackgrounds | js/audioScript.js:253-264 | every other background track is cleared; nothing else changes |
| AudioScript.BackgroundSetSpec | js/audioScript.js:252-286 | enabling makes the chosen track the looping, playing background track named by the record. Disabling unmarks it, stops its loop and clears the record |
| AudioScript.SingleBackground | js/audioScript.js:252-280 | with distinct ids, enabling leaves exactly the chosen track as background |
| AudioScript.ApplyTimeSetting | js/audioScript.js:228-239 | the in-place writes end at the time-setting function |
| AudioScript.AudioPlayer.constructor | js/scriptControls.js:6-20 | no tracks, and a background record naming no track, not playing, with volumes 0.8 and 0.3 |
| AudioScript.AudioPlayer.ReorderAudioDisplay | js/audioScript.js:102-114 | sorted by play order, a permutation |
| AudioScript.AudioPlayer.AddAudioTracks | js/audioScript.js:2-28 | the tracks become `Added`: each record pushed and the array re-sorted after each push |
| AudioScript.ElementEnded | js/audioScript.js:88 | the element stops at the end of its file, and the record, `isPlaying` included, is kept because the listener throws |
| AudioScript.EndedNeedsSecondToggle | js/audioScript.js:88 | after a track has played to its end, the first toggle only pauses it, so it stays silent |
| AudioScript.AudioPlayer.Ended | js/audioScript.js:87-88 | the track becomes `ElementEnded` and the background record is unchanged |
| AudioScript.AudioPlayer.MetadataLoaded | js/audioScript.js:91-96 | the end becomes the element's duration |
| AudioScript.AudioPlayer.MoveTrackUp | js/audioScript.js:117-128 | the tracks become `MovedUp` of the old ones |
| AudioScript.AudioPlayer.MoveTrackDown | js/audioScript.js:131-145 | the tracks become `MovedDown` of the old ones |
| AudioScript.AudioPlayer.ToggleAudioTrack | js/audioScript.js:156-187 | the found track and the record become `Toggled`, including the no-change outcome of the throwing `fadeBackgroundMusic` call; an unknown id changes nothing |
| AudioScript.AudioPlayer.ToggleLoop | js/audioScript.js:189-202 | flips the track's own loop flag |
| AudioScript.AudioPlayer.UpdateTrackVolume | js/audioScript.js:204-207 | sets the found track's element volume |
| AudioScript.AudioPlayer.UpdateAutoNext | js/audioScript.js:242-247 | sets `autoNext` on the found track; an unknown id changes nothing |
| AudioScript.AudioPlayer.DeleteAudioTrack | js/audioScript.js:209-220 | the first track with the id is spliced out; an unknown id changes nothing; the record is left as it was |
| AudioScript.AudioPlayer.UpdateTimeSettings | js/audioScript.js:222-240 | an unknown id changes nothing; otherwise the first matching track takes the setting |
| AudioScript.AudioPlayer.ClearOtherBackgrounds | js/audioScript.js:253-264 | the tracks become `ClearedBackgrounds` |
| AudioScript.AudioPlayer.ToggleBackgroundMusic | js/audioScript.js:248-294 | an unknown id changes nothing; otherwise the enable or disable branch |
| AudioScript.AudioPlayer.EnableBackground | js/audioScript.js:252-281 | others cleared; the track is background and looping, and playing through `toggleAudioTrack`; the record names it |
| AudioScript.AudioPlayer.DisableBackground | js/audioScript.js:282-286 | the track is unmarked and not looping; the record is cleared |
| ExportTimeline.ExportedRecords | js/generateHtmlControls.js:162-177 | one record per editor track in order |
| ExportTimeline.ExportedRecordSpec | js/generateHtmlControls.js:165-176 | a record keeps id, order, start and volume and starts inactive; the end is the truthy end or start + duration |
| ExportTimeline.LargestEndSpec | js/generateHtmlControls.js:183-194 | the page's length is at least 0 and every end, and is 0 or one of the ends |
| ExportTimeline.ExportedLength | js/generateHtmlControls.js:171 | the page's timeline is never shorter than the editor's, and equal when every end is truthy |
| ExportTimeline.Prepared | js/generateHtmlControls.js:185-188 | the element takes the record's volume and does not loop |
| ExportTimeline.PreparedAll | js/generateHtmlControls.js:184-192 | every record prepared, count kept |
| ExportTimeline.StopTrack | js/generateHtmlControls.js:247-253 | a track with an element is paused and rewound, and every track becomes inactive |
| ExportTimeline.Stopped | js/generateHtmlControls.js:247-253 | every track stopped |
| ExportTimeline.Stepped | js/generateHtmlControls.js:299-320 | same count; track k is stepped |
| ExportTimeline.StepTrackSpec | js/generateHtmlControls.js:299-320 | a track with an element is active iff start ≤ elapsed < end, toggling only when that changes; a track without one is untouched |
| ExportTimeline.StopSpec | js/generateHtmlControls.js:237-257 | the clock is at 0 and stopped, and every track is inactive and its element paused and rewound |
| ExportTimeline.FrameKeepsTracks | js/generateHtmlControls.js:266-324 | a frame keeps every track's timing, the count and the length |
| ExportTimeline.FrameBeforeEnd | js/generateHtmlControls.js:270-320 | before the end the current time is the elapsed time and each track is active iff it sounds |
| ExportTimeline.FrameStopsAtEnd | js/generateHtmlControls.js:291-295 | at or past the end without loop the timeline stops |
| ExportTimeline.FrameRestartsAtEnd | js/generateHtmlControls.js:276-290 | at or past the end with loop the clock restarts and every track is inactive |
| ExportTimeline.PlayedSpec | js/generateHtmlControls.js:220-234 | playing stops a running timeline; otherwise starts it and activates exactly the tracks sounding at 0 |
| ExportTimeline.ExportedTimeline.constructor | js/generateHtmlControls.js:147-154 | no tracks and the initial timeline |
| ExportTimeline.ExportedTimeline.InitializeAudioTracks | js/generateHtmlControls.js:157-199 | the array is the records, prepared, and the duration is the largest end |
| ExportTimeline.ExportedTimeline.PrepareTracks | js/generateHtmlControls.js:183-192 | each element prepared, and the largest end returned |
| ExportTimeline.ExportedTimeline.ResetTracks | js/generateHtmlControls.js:284-290 | every track stopped |
| ExportTimeline.ExportedTimeline.StopTimeline | js/generateHtmlControls.js:237-257 | the clock and every track stopped |
| ExportTimeline.ExportedTimeline.ToggleTimelineLoop | js/generateHtmlControls.js:260-263 | the loop flag is flipped |
| ExportTimeline.ExportedTimeline.StepTracks | js/generateHtmlControls.js:299-320 | each track stepped at `elapsed` |
| ExportTimeline.ExportedTimeline.UpdateTimeline | js/generateHtmlControls.js:266-324 | one frame: nothing when not playing; otherwise the end rule and the step |
| ExportTimeline.ExportedTimeline.PlayTimeline | js/generateHtmlControls.js:220-234 | stops a running timeline; otherwise starts it and runs the first frame |
| ExportTimeline.ExportedTimeline.MarkerFound | js/generateHtmlControls.js:330-337 | `playTimeline`, then the page's `playAllAnimations` |
| ExportTimeline.ExportedTimeline.MarkerLost | js/generateHtmlControls.js:339-346 | `stopTimeline`, then the page's `stopAllAnimations` |
| LegacyAudio.LegacyRecords | js/generateHtml.js:143-158 | one record per editor track in order |
| LegacyAudio.LegacyRecordSpec | js/generateHtml.js:146-158 | a record keeps id, order, flags, start and volume and is not playing; a null or zero end is written as `null` |
| LegacyAudio.Initialized | js/generateHtml.js:166-170 | the element takes the record's volume; a background element loops |
| LegacyAudio.InitializedAll | js/generateHtml.js:165-171 | every record initialized |
| LegacyAudio.LastBackgroundSpec | js/generateHtml.js:167-169 | `backgroundAudioTrack` is the last background track, and there is none exactly when no track is background |
| LegacyAudio.RegularSpec | js/generateHtml.js:210-211 | the filter keeps each non-background index exactly once and nothing else |
| LegacyAudio.RegularTracksSpec | js/generateHtml.js:210-212 | every non-background track exactly once, nothing else, sorted by play order |
| LegacyAudio.RegularTracksFirst | js/generateHtml.js:210-212 | the first has the lowest order among the regular tracks |
| LegacyAudio.StoppedSameRegular | js/generateHtml.js:208-212 | stopping the tracks does not change the sequence |
| LegacyAudio.SameRegularTracks | js/generateHtml.js:210-212 | the sequence depends only on flags and play orders |
| LegacyAudio.StopTrack | js/generateHtml.js:272-279 | paused, not playing, at its start in timeline mode with a positive start, else at 0 |
| LegacyAudio.Stopped | js/generateHtml.js:271-280 | every track stopped |
| LegacyAudio.StopAll | js/generateHtml.js:265-284 | as `stopAllAudio`; keeps the track count, flags, play orders and background index |
| LegacyAudio.PlayNext | js/generateHtml.js:223-263 | as `playNextInSequence`; keeps the track count, flags, play orders and background index |
| LegacyAudio.PlaySequential | js/generateHtml.js:202-221 | as `playSequentialAudio`; keeps the track count, flags, play orders and background index |
| LegacyAudio.Reacting | js/generateHtml.js:241-257 | the listeners of the array that react to the event, in order |
| LegacyAudio.Staying | js/generateHtml.js:242-243 | the listeners of the array that do not react |
| LegacyAudio.ReactingSplits | js/generateHtml.js:241-259 | every listener either reacts or stays; some react iff one does; none reacting means all stay |
| LegacyAudio.Fire | js/generateHtml.js:241-250 | the reacting `onEnded` bodies run one after another; keeps the track count, flags, play orders and background index |
| LegacyAudio.Ended | js/generateHtml.js:259 | the `ended` event: pause, then the listeners; keeps the track count, flags, play orders and background index |
| LegacyAudio.TimeUpdated | js/generateHtml.js:252-257 | a `timeupdate` event; keeps the track count, flags, play orders and background index |
| LegacyAudio.Timeout | js/generateHtml.js:247-249 | the oldest pending timeout continues its sequence; keeps the track count, flags, play orders and background index |
| LegacyAudio.StopAllSpec | js/generateHtml.js:265-284 | every track stopped, index 0, every listener and timeout kept |
| LegacyAudio.PlaySequentialSpec | js/generateHtml.js:202-221 | no tracks: nothing; otherwise stop all, and with a regular track play the lowest-order one from index 0 |
| LegacyAudio.PlayNextAtEnd | js/generateHtml.js:224-227 | at the end of the sequence nothing more is played |
| LegacyAudio.EventsWellFormed | js/generateHtml.js:202-284 | every event keeps indices in range |
| LegacyAudio.TwoRegular | js/generateHtml.js:210-212 | two regular tracks in order are played first to second |
| LegacyAudio.TwoTrackPlay | js/generateHtml.js:202-221 | with two tracks the first plays and its listeners are added behind any old ones |
| LegacyAudio.EndedTwice | js/generateHtml.js:241-250 | two `ended` listeners both run: the index advances by two |
| LegacyAudio.StaleListenerSkipsTrack | js/generateHtml.js:241-282 | as written, losing and refinding the marker during track a makes the index jump to 2, so b never plays |
| LegacyAudio.StopAllClearing | js/generateHtml.js:265-284 | the intended stop is `stopAllAudio` plus removing every listener and cancelling every timeout |
| LegacyAudio.PlaySequentialClearing | js/generateHtml.js:202-221 | `playSequentialAudio` with the intended stop; keeps the track count, flags, play orders and background index |
| LegacyAudio.ClearingKeepsSingleCursor | js/generateHtml.js:241-282 | with the intended stop every event keeps a single cursor |
| LegacyAudio.ClearingAdvancesByOne | js/generateHtml.js:241-250 | with one cursor, `ended` of the listened track advances by exactly one; other tracks leave the index |
| LegacyAudio.ClearingPlaysSecondTrack | js/generateHtml.js:202-263 | with the intended stop the two-track scenario plays b after a |
| LegacyAudio.PlayBackground | js/generateHtml.js:184-186 | the background element is played and its flag left; keeps the track count, flags, play orders and background index |
| LegacyAudio.ToggleBackground | js/generateHtml.js:286-302 | `toggleBackgroundAudio`; keeps the track count, flags, play orders and background index |
| LegacyAudio.ToggleBackgroundSpec | js/generateHtml.js:286-302 | flips the flag and matches the element, touches no other track, and twice restores the flag |
| LegacyAudio.MarkerFoundAudio | js/generateHtml.js:179-191 | as written: background played, then `playSequentialAudio`; keeps the track count, flags, play orders and background index |
| LegacyAudio.MarkerFoundSilencesBackground | js/generateHtml.js:183-208 | as written, the background track is never playing after `markerFound` |
| LegacyAudio.MarkerFoundAudioBackgroundLast | js/generateHtml.js:179-191 | intended: the sequence starts first, then the background plays; keeps the track count, flags, play orders and background index |
| LegacyAudio.BackgroundLastPlays | js/generateHtml.js:179-191 | then the background track is playing and the sequence starts as before |
| LegacyAudio.LegacySequencer.constructor | js/generateHtml.js:130-135 | no tracks, index 0, no listeners or timeouts, no background track, marker not visible |
| LegacyAudio.LegacySequencer.InitializeAudioTracks | js/generateHtml.js:138-174 | the array is the initialized records, and `backgroundAudioTrack` is the last background track or unchanged |
| LegacyAudio.LegacySequencer.StopAllAudio | js/generateHtml.js:265-284 | the state becomes `StopAll` of the old one |
| LegacyAudio.LegacySequencer.PlayNextInSequence | js/generateHtml.js:223-263 | the state becomes `PlayNext` |
| LegacyAudio.LegacySequencer.PlaySequentialAudio | js/generateHtml.js:202-221 | the state becomes `PlaySequential` |
| LegacyAudio.LegacySequencer.TrackEnded | js/generateHtml.js:241-250 | the state becomes `Ended` |
| LegacyAudio.LegacySequencer.TrackTimeUpdate | js/generateHtml.js:252-257 | the state becomes `TimeUpdated` |
| LegacyAudio.LegacySequencer.FireListeners | js/generateHtml.js:241-250 | the state becomes `Fire` |
| LegacyAudio.LegacySequencer.RunTimeout | js/generateHtml.js:247-249 | the state becomes `Timeout` |
| LegacyAudio.LegacySequencer.ToggleBackgroundAudio | js/generateHtml.js:286-302 | the state becomes `ToggleBackground` |
| LegacyAudio.LegacySequencer.MarkerFound | js/generateHtml.js:179-191 | marker visible, audio as `MarkerFoundAudio`, and the page's animations started |
| LegacyAudio.LegacySequencer.MarkerLost | js/generateHtml.js:193-200 | marker not visible, audio as `StopAll`, and the page's intervals cleared |

## Left out

- Floating point: numbers are exact reals. NaN (a zero duration, `parseFloat` of an empty input, `audio.duration` before `loadedmetadata`) and IEEE rounding are not modelled. A duration is a `NonZero` real.
- AudioScript.TimeSettingEnd: an element's duration is its file's length from the start, so an 'end' setting of 0 or less before the metadata has loaded takes that length. In the browser it is NaN, the start check at js/audioScript.js:234 is false, and neither the start nor the timeline mode changes; the model does not capture that case.
- `toFixed` and `Number.prototype.toString`: `Fixed2` rounds half away from zero on exact reals. `getCleanValue`'s "more than six decimals in the decimal string" test is `ManyDecimals` on exact reals.
- `Math.sin`, `Math.cos` and `Math.pow` are uninterpreted, so no trigonometric fact is used.
- Timers and clocks: `setInterval`, `setTimeout`, `requestAnimationFrame` and `Date.now` are explicit `now` parameters and callback methods. The order in which the browser runs callbacks is the caller's choice.
- Media events (`loadedmetadata`, `ended`, an image's `onload`) are methods the caller runs, in the order it chooses. The model does not derive the end of playback from the position reaching the file's length. A timeline frame does not notice that an element has ended: until `Ended` is run, the model still has that element playing.
- DOM reads and writes, button labels, value labels, the layer list, HTML/CSS building beyond the per-layer attribute values, and `getElementById` (assumed to find its element).
- The JSON and `&quot;` round trip of the attributes is the identity. Escaping of names is not modelled.
- Zip, QR, Blob and FileReader export (`exportAsAR`, `exportAsModel`), `getAudioBlobFromElement`, `handleProjectFileSelect`, `loadProjectFromFile`, `loadAudioFromData` and `clearAllAudio`: I/O and foreign calls.
- LoadModel: the project name, background colour, camera, timeline settings and audio restore are not modelled.
- test.py, index.py, js/threeControls.js and js/three.js: depth estimation, camera control and scene setup over libraries not shown.
- `fadeBackgroundMusic` (called by `toggleAudioTrack` at js/audioScript.js:171) is not defined in any file of this repository. The model takes the call as the ReferenceError it raises: the handler stops and the track does not start. What a fade of the background volume would do is not modelled.
- `onTrackEnded` and `updateTimeDisplay`, called by the `ended` and `timeupdate` listeners that the editor's player registers at js/audioScript.js:87-88, are not defined in any file of this repository. The model takes both calls as the ReferenceError they raise, so they change no record: a track that plays to its end keeps `isPlaying` true (`AudioScript.ElementEnded`).
- `audio.play()` returns a promise that may reject (autoplay blocked). The model treats every `play()` as starting playback.
- Track records are values in a sequence, not shared objects. The legacy page's `backgroundAudioTrack` is an index into the array, and the listener closures are values.
- TrackLists.SortByOrderSpec: states sortedness and permutation, not stability. A JavaScript `sort` with a comparator is stable in current engines, and equal play orders are not distinguished here.
- The legacy page's `sequentialAudioInterval` is never set by any code shown, so the `clearInterval` branch of `stopAllAudio` is not part of this model.
- Event listener dispatch runs the reacting listeners in registration order as one step (`Fire`). Dispatch to listeners added during that same dispatch is not modelled.
- `updateSpecialEffectValues`, `toggleIndividualTrack`, `updateTimelineStatus`, `updateTimelineDisplay`, `playAllAudio`, `playAllInSequence`, `pauseAllAudio` and `stopAllAudio` of the editor are display code or controls outside the timeline, and are not part of this model.
- AudioScript.AudioPlayer.DeleteAudioTrack: the background record may still name a deleted track. This is the source's behaviour, stated and not corrected.
- `previewAnimation`'s delayed restore is a separate call (`PreviewRestore`), not a timer.
- The rotation export marked as broken in `exportAsModel` is I/O and not modelled.

## Findings

| source | as written | input that shows it | evidently intended | confidence | as-written member | corrected member |
|---|---|---|---|---|---|---|
| js/buttonControls.js:17-30 | `previewAnimation` clears `loopAnimation` and then calls `applyAnimation`. That calls `saveCurrentLayerSettings` (js/scriptControls.js:42-50), which copies the loop checkbox back before the handle is created | a selected layer with effect 'rotate' and the loop box checked: Preview builds a looping handle, so the "single run" repeats | the preview handle is created with loop off and holds the end pose after one run | high, not executed | ButtonControls.PreviewLoopsWhenBoxChecked | ButtonControls.PreviewOnceEnds, ButtonControls.PreviewAnimationOnce |
| js/generateHtml.js:241-282 | `stopAllAudio` pauses the tracks and resets the index, but leaves the `ended` listeners of the playing track and its pending timeouts in place | two regular tracks a and b. Marker found, then lost and found again while a plays: when a ends, both `ended` listeners run, the index jumps from 0 to 2, and b never plays | stopping also removes the sequence's listeners and cancels its timeouts, so each end advances the index by one | high, not executed | LegacyAudio.StaleListenerSkipsTrack | LegacyAudio.ClearingKeepsSingleCursor, LegacyAudio.ClearingAdvancesByOne, LegacyAudio.ClearingPlaysSecondTrack |
| js/generateHtml.js:183-208 | `markerFound` plays the background track and then calls `playSequentialAudio`, which begins with `stopAllAudio` and pauses every track, the background one included | any page with a background track: after the marker is found the background track is paused | the background track keeps playing while the sequence runs | high, not executed | LegacyAudio.MarkerFoundSilencesBackground | LegacyAudio.BackgroundLastPlays |
