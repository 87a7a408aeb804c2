/** What both exported AR pages share: the attributes each layer's `<a-plane>` is written
    with, the element the page script animates, and the interval bookkeeping of the page's
    `playAllAnimations`. */
module ExportedPlanes {
  import opened JsMath
  import opened Common
  import opened LayerTypes
  import opened LiveEvaluator
  import opened Layers

  function RadToDeg3(v: Vec3): Vec3
  {
    Vec3(RadToDeg(v.x), RadToDeg(v.y), RadToDeg(v.z))
  }

  function DegToRad3(v: Vec3): Vec3
  {
    Vec3(DegToRad(v.x), DegToRad(v.y), DegToRad(v.z))
  }

  function Fixed3(v: Vec3): Vec3
  {
    Vec3(Fixed2(v.x), Fixed2(v.y), Fixed2(v.z))
  }

  /** Each coordinate of `u` is within half a hundredth of that of `v`. */
  predicate Near3(u: Vec3, v: Vec3)
  {
    Abs(u.x - v.x) <= 0.005 && Abs(u.y - v.y) <= 0.005 && Abs(u.z - v.z) <= 0.005
  }

  /** The attributes of a layer's `<a-plane>`, as the page script reads them back. The
      `position`, `rotation` (degrees), `scale` and material `opacity` attributes are what
      the element first displays; the `data-*` attributes are read by the animation code.
      A JSON attribute that fails to parse is `None`. */
  datatype PlaneAttributes = PlaneAttributes(
    id: int,
    position: Vec3,
    rotation: Vec3,
    scale: Vec3,
    opacity: real,
    animationEnabled: bool,
    specialEffect: string,
    animationSpeed: real,
    animationDuration: NonZero,
    loopAnimation: bool,
    customStart: Option<Keyframe>,
    customEnd: Option<Keyframe>,
    specialSettings: Option<EffectSettings>,
    originalPosition: Vec3,
    originalRotation: Vec3,   // radians, as stored by the editor
    originalScale: Vec3,
    originalOpacity: real)    // the two-decimal string of the opacity

  /** The attributes written for layer `id` in state `s`: the displayed pose rounded to two
      decimals with the rotation in degrees, the JSON data attributes exact, and the
      original opacity rounded like the displayed one. */
  function PlaneOf(id: int, s: LayerState): PlaneAttributes
  {
    PlaneAttributes(
      id,
      Fixed3(s.originalPosition), Fixed3(RadToDeg3(s.originalRotation)), Fixed3(s.originalScale),
      Fixed2(s.originalOpacity),
      s.enableCustomAnimation, s.specialEffect, s.animationSpeed, s.animationDuration, s.loopAnimation,
      Some(s.customAnimation.start), Some(s.customAnimation.end), Some(s.specialEffectSettings),
      s.originalPosition, s.originalRotation, s.originalScale, Fixed2(s.originalOpacity))
  }

  /** The per-layer loop of the page generators: one `<a-plane>` per entry of `imageLayers`,
      in order. */
  method SerializeLayers(ed: Editor) returns (planes: seq<PlaneAttributes>)
    ensures |planes| == |ed.imageLayers|
    ensures forall k :: 0 <= k < |planes| ==>
              planes[k] == PlaneOf(ed.imageLayers[k].id, ed.imageLayers[k].State())
  {
    planes := [];
    var i := 0;
    while i < |ed.imageLayers|
      invariant 0 <= i <= |ed.imageLayers|
      invariant |planes| == i
      invariant forall k :: 0 <= k < i ==>
                  planes[k] == PlaneOf(ed.imageLayers[k].id, ed.imageLayers[k].State())
    {
      var layer := ed.imageLayers[i];
      planes := planes + [PlaneOf(layer.id, layer.State())];
      i := i + 1;
    }
  }

  /** The pose the element first displays. */
  function DisplayedPose(a: PlaneAttributes): Pose
  {
    Pose(a.position, a.rotation, a.scale, a.opacity)
  }

  /** The pose the controls page rebuilds from the `data-original-*` attributes, with the
      rotation converted to degrees. */
  function OriginalPose(a: PlaneAttributes): Pose
  {
    Pose(a.originalPosition, RadToDeg3(a.originalRotation), a.originalScale, a.originalOpacity)
  }

  /** The record the page falls back to when `data-special-settings` does not parse. */
  const FallbackSettings := EffectSettings(
    90.0, 8.0, 5.0,
    2.0, 6.0, 5.0, 3.0,
    60.0, 2.0,
    1.5, 4.0, 4.0, 2.0,
    2.0, 4.0,
    3.0, 6.0,
    10.0, 1.0)

  /** The settings the page uses: the parsed attribute, or the fallback, which is the very
      record a new layer starts with in the editor. */
  function SettingsRead(a: PlaneAttributes): (r: EffectSettings)
    ensures a.specialSettings.None? ==> r == DefaultSettings
    ensures a.specialSettings.Some? ==> r == a.specialSettings.value
  {
    match a.specialSettings
    case Some(s) => s
    case None => FallbackSettings
  }

  /** `data-animation-enabled` is true or the effect is not 'none'. */
  predicate Qualifies(a: PlaneAttributes)
  {
    a.animationEnabled || a.specialEffect != "none"
  }

  /** One `setInterval` of `playAllAnimations`: the plane it animates (by document order)
      and what its closure captured; `cleared` once the closure called `clearInterval`. */
  datatype Timer = Timer(plane: nat, handle: Handle, enableCustom: bool, specialEffect: string,
                         settings: EffectSettings, cleared: bool)

  /** The interval started for plane `k` with attributes `a` at `now`. */
  function TimerFor(k: nat, a: PlaneAttributes, now: real): Timer
  {
    Timer(k, Handle(now, a.animationDuration, a.animationSpeed, a.loopAnimation),
          a.animationEnabled, a.specialEffect, SettingsRead(a), false)
  }

  /** The intervals `playAllAnimations` pushes for the planes `ps`, in document order. */
  function Timers(ps: seq<PlaneAttributes>, now: real): seq<Timer>
  {
    if |ps| == 0 then []
    else
      var k := |ps| - 1;
      if Qualifies(ps[k]) then Timers(ps[..k], now) + [TimerFor(k, ps[k], now)] else Timers(ps[..k], now)
  }

  /** Exactly the qualifying planes get an interval, one each and in document order, and
      each interval captured its own plane's attributes. */
  lemma TimersSpec(ps: seq<PlaneAttributes>, now: real)
    ensures forall j :: 0 <= j < |Timers(ps, now)| ==>
              Timers(ps, now)[j].plane < |ps| && Qualifies(ps[Timers(ps, now)[j].plane])
              && Timers(ps, now)[j] == TimerFor(Timers(ps, now)[j].plane, ps[Timers(ps, now)[j].plane], now)
    ensures forall k :: 0 <= k < |ps| && Qualifies(ps[k]) ==>
              exists j :: 0 <= j < |Timers(ps, now)| && Timers(ps, now)[j].plane == k
    ensures forall j1, j2 :: 0 <= j1 < j2 < |Timers(ps, now)| ==>
              Timers(ps, now)[j1].plane < Timers(ps, now)[j2].plane
  {
    TimersSound(ps, now);
    TimersComplete(ps, now);
    TimersIncreasing(ps, now);
  }

  lemma {:induction false} TimersSound(ps: seq<PlaneAttributes>, now: real)
    ensures forall j :: 0 <= j < |Timers(ps, now)| ==>
              Timers(ps, now)[j].plane < |ps| && Qualifies(ps[Timers(ps, now)[j].plane])
              && Timers(ps, now)[j] == TimerFor(Timers(ps, now)[j].plane, ps[Timers(ps, now)[j].plane], now)
  {
    if |ps| > 0 {
      var k := |ps| - 1;
      var front := ps[..k];
      TimersSound(front, now);
      var ts := Timers(ps, now);
      var tf := Timers(front, now);
      forall j | 0 <= j < |ts|
        ensures ts[j].plane < |ps| && Qualifies(ps[ts[j].plane])
                && ts[j] == TimerFor(ts[j].plane, ps[ts[j].plane], now)
      {
        if j < |tf| {
          assert ts[j] == tf[j];
          assert ps[tf[j].plane] == front[tf[j].plane];
        }
      }
    }
  }

  lemma {:induction false} TimersComplete(ps: seq<PlaneAttributes>, now: real)
    ensures forall k :: 0 <= k < |ps| && Qualifies(ps[k]) ==>
              exists j :: 0 <= j < |Timers(ps, now)| && Timers(ps, now)[j].plane == k
  {
    if |ps| > 0 {
      var k := |ps| - 1;
      var front := ps[..k];
      TimersComplete(front, now);
      var ts := Timers(ps, now);
      var tf := Timers(front, now);
      forall k' | 0 <= k' < |ps| && Qualifies(ps[k'])
        ensures exists j :: 0 <= j < |ts| && ts[j].plane == k'
      {
        if k' < k {
          assert front[k'] == ps[k'];
          var j :| 0 <= j < |tf| && tf[j].plane == k';
          assert ts[j] == tf[j];
        } else {
          assert ts[|tf|].plane == k;
        }
      }
      assert ts == Timers(ps, now);
    }
  }

  lemma {:induction false} TimersIncreasing(ps: seq<PlaneAttributes>, now: real)
    ensures forall j1, j2 :: 0 <= j1 < j2 < |Timers(ps, now)| ==>
              Timers(ps, now)[j1].plane < Timers(ps, now)[j2].plane
  {
    if |ps| > 0 {
      var k := |ps| - 1;
      var front := ps[..k];
      TimersIncreasing(front, now);
      TimersSound(front, now);
      var ts := Timers(ps, now);
      var tf := Timers(front, now);
      forall j1, j2 | 0 <= j1 < j2 < |ts|
        ensures ts[j1].plane < ts[j2].plane
      {
        assert ts[j1] == tf[j1];
        if j2 < |tf| {
          assert ts[j2] == tf[j2];
        }
      }
    }
  }


  /** Reading a serialized layer back: the rebuilt base pose has the layer's exact position
      and scale, its rotation in degrees (which converts back to the stored radians) and its
      opacity rounded to two decimals; the settings, keyframes and flags are the layer's own;
      and a qualifying plane's interval captures the handle `createAnimationForLayer` would
      create at the same moment. */
  lemma SerializedReadBack(id: int, s: LayerState, k: nat, now: real)
    ensures var a := PlaneOf(id, s);
            && OriginalPose(a) == Pose(s.originalPosition, RadToDeg3(s.originalRotation),
                                       s.originalScale, Fixed2(s.originalOpacity))
            && DegToRad3(OriginalPose(a).rotation) == s.originalRotation
            && SettingsRead(a) == s.specialEffectSettings
            && a.customStart == Some(s.customAnimation.start) && a.customEnd == Some(s.customAnimation.end)
            && (Qualifies(a) <==> Animated(s.enableCustomAnimation, s.specialEffect))
            && (Qualifies(a) ==> Some(TimerFor(k, a, now).handle) == CreateAnimation(s, now))
  {
    var r := s.originalRotation;
    DegRadInverse(0.0, r.x);
    DegRadInverse(0.0, r.y);
    DegRadInverse(0.0, r.z);
  }

  /** The displayed attributes are within half a hundredth of the layer's pose (rotation in
      degrees), and the displayed opacity is the one the animation code starts from. */
  lemma DisplayedNearOriginal(id: int, s: LayerState)
    ensures var a := PlaneOf(id, s);
            && Near3(a.position, s.originalPosition)
            && Near3(a.rotation, RadToDeg3(s.originalRotation))
            && Near3(a.scale, s.originalScale)
            && Abs(a.opacity - s.originalOpacity) <= 0.005
            && a.opacity == a.originalOpacity
  {
    var p, r, c := s.originalPosition, RadToDeg3(s.originalRotation), s.originalScale;
    Fixed2Close(p.x); Fixed2Close(p.y); Fixed2Close(p.z);
    Fixed2Close(r.x); Fixed2Close(r.y); Fixed2Close(r.z);
    Fixed2Close(c.x); Fixed2Close(c.y); Fixed2Close(c.z);
    Fixed2Close(s.originalOpacity);
  }

  /** Every plane is a different element. */
  predicate Distinct<T(==)>(s: seq<T>)
  {
    forall i, j :: 0 <= i < j < |s| ==> s[i] != s[j]
  }

  /** An `<a-plane>` of the page: its attributes, and the pose it displays, which the page
      script rewrites with `setAttribute` (rotation in degrees). */
  class PlaneElement {
    const attributes: PlaneAttributes
    var shown: Pose

    /** The element as the page loads: it displays its `position`, `rotation`, `scale` and
        material attributes. */
    constructor (a: PlaneAttributes)
      ensures attributes == a && shown == DisplayedPose(a)
    {
      attributes := a;
      shown := DisplayedPose(a);
    }
  }
}
