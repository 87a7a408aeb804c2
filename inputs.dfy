/** The editor's form controls, as the values `parseFloat`, `.checked` and `.value` read from
    them at the moment an event handler runs. */
module Inputs {
  import opened JsMath
  import opened LayerTypes

  /** Every input a layer handler reads. `rotationDeg` holds the three rotation sliders in
      degrees; `customAnimation` the twelve keyframe inputs; `settings` the nineteen effect
      inputs. */
  datatype Panel = Panel(
    loopAnimation: bool,
    enableCustomAnimation: bool,
    specialEffect: string,
    animationSpeed: real,
    animationDuration: NonZero,
    settings: EffectSettings,
    customAnimation: CustomAnimation,
    position: Vec3,
    rotationDeg: Vec3,
    scale: real,
    alpha: real)
}
