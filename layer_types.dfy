/** The value types of an image layer (the record built by `addImageLayer`): vectors,
    keyframes, the nineteen effect settings, effect names, poses and animation handles. */
module LayerTypes {
  import opened JsMath

  datatype Vec3 = Vec3(x: real, y: real, z: real)

  /** An authored keyframe; `rotation` is in degrees. */
  datatype Keyframe = Keyframe(x: real, y: real, z: real, scale: real, opacity: real, rotation: real)

  datatype CustomAnimation = CustomAnimation(start: Keyframe, end: Keyframe)

  /** The flat settings record of the special effects, one field per parameter. No range is enforced. */
  datatype EffectSettings = EffectSettings(
    swingRange: real, swingFreq: real, swingTargetX: real,
    zigzagAmp: real, zigzagFreq: real, zigzagTargetX: real, zigzagTargetY: real,
    pendulumRange: real, pendulumSpeed: real,
    waveAmp: real, waveFreq: real, waveTargetX: real, waveTargetY: real,
    bounceHeight: real, bounceFreq: real,
    spiralRadius: real, spiralRotations: real,
    slideDistance: real, rotateCycles: real)

  /** The settings a new layer starts with. */
  const DefaultSettings := EffectSettings(
    90.0, 8.0, 5.0,
    2.0, 6.0, 5.0, 3.0,
    60.0, 2.0,
    1.5, 4.0, 4.0, 2.0,
    2.0, 4.0,
    3.0, 6.0,
    10.0, 1.0)

  /** The keyframe a new layer starts with, at both ends of its custom animation. */
  const RestKeyframe := Keyframe(0.0, 0.0, 0.0, 1.0, 1.0, 0.0)

  /** The cases of the effect `switch`; any other string matches no case. */
  datatype Effect =
    | NoEffect
    | SwingToTarget | ZigzagToTarget | PendulumMove | WaveToTarget | ElasticMove
    | SlideDown | SlideUp | SlideLeft | SlideRight
    | FadeIn | ScaleIn | Rotate | Bounce | Spiral
    | UnknownEffect

  /** The names the effect `switch` has a `case` for. */
  const EffectNames: set<string> := {
    "swingToTarget", "zigzagToTarget", "pendulumMove", "waveToTarget", "elasticMove",
    "slideDown", "slideUp", "slideLeft", "slideRight",
    "fadeIn", "scaleIn", "rotate", "bounce", "spiral"}

  /** Which `case` label of the effect `switch` a `specialEffect` string selects. */
  function ParseEffect(name: string): (e: Effect)
    ensures e == NoEffect <==> name == "none"
    ensures e == UnknownEffect <==> name != "none" && name !in EffectNames
    ensures e == SlideDown <==> name == "slideDown"
    ensures e == FadeIn <==> name == "fadeIn"
  {
    if name == "none" then NoEffect
    else if name == "swingToTarget" then SwingToTarget
    else if name == "zigzagToTarget" then ZigzagToTarget
    else if name == "pendulumMove" then PendulumMove
    else if name == "waveToTarget" then WaveToTarget
    else if name == "elasticMove" then ElasticMove
    else if name == "slideDown" then SlideDown
    else if name == "slideUp" then SlideUp
    else if name == "slideLeft" then SlideLeft
    else if name == "slideRight" then SlideRight
    else if name == "fadeIn" then FadeIn
    else if name == "scaleIn" then ScaleIn
    else if name == "rotate" then Rotate
    else if name == "bounce" then Bounce
    else if name == "spiral" then Spiral
    else UnknownEffect
  }

  /** A pose written to a renderable. The live mesh holds rotations in radians, the exported
      planes in degrees. */
  datatype Pose = Pose(position: Vec3, rotation: Vec3, scale: Vec3, opacity: real)

  /** What an animation handle captures when it is created: its start stamp (ms) and the
      layer's duration, speed and loop flag at that moment. */
  datatype Handle = Handle(startTime: real, duration: NonZero, speed: real, loop: bool)

  /** What the live `update` closure reads from its layer on every tick. */
  datatype LayerConfig = LayerConfig(
    originalPosition: Vec3,
    originalRotation: Vec3,   // radians
    originalScale: Vec3,
    originalOpacity: real,
    enableCustomAnimation: bool,
    specialEffect: string,
    customAnimation: CustomAnimation,
    settings: EffectSettings)

  /** The custom-animation flag or the effect asks for an animation. */
  predicate Animated(custom: bool, effect: string)
  {
    custom || effect != "none"
  }
}
