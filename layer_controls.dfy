/** The layer list of the editor: adding image layers, selecting one, deleting one by id. */
module LayerControls {
  import opened JsMath
  import opened Common
  import opened LayerTypes
  import opened Inputs
  import opened Layers

  /** The inputs `selectLayer` fills in from a layer: the mesh's pose (its rotation read back
      as `rad / Math.PI * 180`, its x scale, its opacity) and the layer's animation fields. */
  function PanelFor(s: LayerState, mesh: Pose): (p: Panel)
    ensures p.loopAnimation == s.loopAnimation && p.enableCustomAnimation == s.enableCustomAnimation
    ensures p.specialEffect == s.specialEffect && p.animationSpeed == s.animationSpeed
    ensures p.animationDuration == s.animationDuration
    ensures p.settings == s.specialEffectSettings && p.customAnimation == s.customAnimation
    ensures p.position == mesh.position && p.scale == mesh.scale.x && p.alpha == mesh.opacity
    ensures Vec3(DegToRad(p.rotationDeg.x), DegToRad(p.rotationDeg.y), DegToRad(p.rotationDeg.z))
            == mesh.rotation
  {
    var r := mesh.rotation;
    Panel(s.loopAnimation, s.enableCustomAnimation, s.specialEffect, s.animationSpeed,
          s.animationDuration, s.specialEffectSettings, s.customAnimation, mesh.position,
          Vec3(r.x / Pi * 180.0, r.y / Pi * 180.0, r.z / Pi * 180.0),
          mesh.scale.x, mesh.opacity)
  }

  /** `selectLayer`: makes `layer` the selection and returns the inputs it shows. The
      `toggleCustomControls` and `updateSpecialEffect` calls at its end write back the values
      just shown, which changes no field. */
  method SelectLayer(ed: Editor, layer: Layer) returns (panel: Panel)
    modifies ed
    ensures ed.selectedLayer == Some(layer)
    ensures ed.imageLayers == old(ed.imageLayers) && ed.layerCounter == old(ed.layerCounter)
    ensures panel == PanelFor(layer.State(), layer.mesh.Current())
  {
    ed.selectedLayer := Some(layer);
    panel := PanelFor(layer.State(), layer.mesh.Current());
  }

  /** The `img.onload` handler of `addImageLayer`: a layer with the next id, the file's name
      and the default record, on a fresh mesh at the default pose; appended and selected. */
  method ImageLoaded(ed: Editor, name: string) returns (layer: Layer)
    requires ed.Valid()
    modifies ed
    ensures ed.Valid()
    ensures fresh(layer) && fresh(layer.mesh)
    ensures layer.id == old(ed.layerCounter) && layer.State() == DefaultLayerState(name)
    ensures layer.mesh.Current() == Pose(Vec3(0.0, 0.0, 0.0), Vec3(0.0, 0.0, 0.0), Vec3(1.0, 1.0, 1.0), 1.0)
    ensures ed.layerCounter == old(ed.layerCounter) + 1
    ensures ed.imageLayers == old(ed.imageLayers) + [layer]
    ensures ed.selectedLayer == Some(layer)
    ensures old(IdsBelowCounter(ed)) ==> IdsBelowCounter(ed)
  {
    layer := new Layer(ed.layerCounter, DefaultLayerState(name));
    if IdsBelowCounter(ed) {
      AppendKeepsIdsBelow(ed.imageLayers, ed.layerCounter, layer);
    }
    ed.layerCounter := ed.layerCounter + 1;
    ed.imageLayers := ed.imageLayers + [layer];
    var _ := SelectLayer(ed, layer);
  }

  /** The layers `ls` were loaded from the first `|ls|` of `names`, with ids counting up from `base`. */
  ghost predicate LoadedFrom(ls: seq<Layer>, names: seq<string>, base: int)
    requires |ls| <= |names|
    reads set l | l in ls
  {
    forall k :: 0 <= k < |ls| ==> ls[k].id == base + k && ls[k].State() == DefaultLayerState(names[k])
  }

  /** The names of the files `loads` picks, in that order. */
  function LoadedNames(files: seq<string>, loads: seq<nat>): (names: seq<string>)
    requires forall k :: 0 <= k < |loads| ==> loads[k] < |files|
    ensures |names| == |loads| && forall k :: 0 <= k < |loads| ==> names[k] == files[loads[k]]
  {
    seq(|loads|, k requires 0 <= k < |loads| => files[loads[k]])
  }

  /** `addImageLayer`: with no file chosen it only alerts (`alerted`). Otherwise each file
      gets an `img.onload` handler; `loads` lists the files whose image decodes, in the order
      their handlers run. A file that does not decode never runs its handler, so it adds no
      layer and takes no id. */
  method AddImageLayer(ed: Editor, files: seq<string>, loads: seq<nat>) returns (alerted: bool)
    requires ed.Valid()
    requires forall k :: 0 <= k < |loads| ==> loads[k] < |files|
    requires forall j, k :: 0 <= j < k < |loads| ==> loads[j] != loads[k]
    modifies ed
    ensures ed.Valid()
    ensures alerted <==> |files| == 0
    ensures |loads| == 0 ==> ed.imageLayers == old(ed.imageLayers) && ed.selectedLayer == old(ed.selectedLayer)
                             && ed.layerCounter == old(ed.layerCounter)
    ensures ed.layerCounter == old(ed.layerCounter) + |loads|
    ensures |ed.imageLayers| == |old(ed.imageLayers)| + |loads| <= |old(ed.imageLayers)| + |files|
    ensures ed.imageLayers[..|old(ed.imageLayers)|] == old(ed.imageLayers)
    ensures var added := ed.imageLayers[|old(ed.imageLayers)|..];
            forall k :: 0 <= k < |loads| ==>
              var l := added[k];
              l.id == old(ed.layerCounter) + k && l.State() == DefaultLayerState(files[loads[k]])
    ensures |loads| > 0 ==> ed.selectedLayer == Some(ed.imageLayers[|ed.imageLayers| - 1])
  {
    DistinctIndicesBound(loads, |files|);
    if |files| == 0 {
      return true;
    }
    alerted := false;
    ImagesLoaded(ed, files, loads);
  }

  /** The `img.onload` handlers that run, in the order `loads` gives: each is `ImageLoaded`,
      so the ids count up in load order and the last layer loaded is selected. */
  method ImagesLoaded(ed: Editor, files: seq<string>, loads: seq<nat>)
    requires ed.Valid()
    requires forall k :: 0 <= k < |loads| ==> loads[k] < |files|
    modifies ed
    ensures ed.Valid()
    ensures ed.layerCounter == old(ed.layerCounter) + |loads|
    ensures |ed.imageLayers| == |old(ed.imageLayers)| + |loads|
    ensures ed.imageLayers[..|old(ed.imageLayers)|] == old(ed.imageLayers)
    ensures var added := ed.imageLayers[|old(ed.imageLayers)|..];
            forall k :: 0 <= k < |loads| ==>
              var l := added[k];
              l.id == old(ed.layerCounter) + k && l.State() == DefaultLayerState(files[loads[k]])
    ensures |loads| > 0 ==> ed.selectedLayer == Some(ed.imageLayers[|ed.imageLayers| - 1])
    ensures |loads| == 0 ==> ed.imageLayers == old(ed.imageLayers) && ed.selectedLayer == old(ed.selectedLayer)
  {
    var names := LoadedNames(files, loads);
    ghost var added: seq<Layer> := [];
    var i := 0;
    while i < |names|
      invariant 0 <= i <= |names| && |added| == i
      invariant ed.Valid()
      invariant ed.layerCounter == old(ed.layerCounter) + i
      invariant ed.imageLayers == old(ed.imageLayers) + added
      invariant LoadedFrom(added, names, old(ed.layerCounter))
      invariant i > 0 ==> ed.selectedLayer == Some(ed.imageLayers[|ed.imageLayers| - 1])
      invariant i == 0 ==> ed.selectedLayer == old(ed.selectedLayer)
    {
      var layer := ImageLoaded(ed, names[i]);
      added := added + [layer];
      i := i + 1;
    }
    assert ed.imageLayers[|old(ed.imageLayers)|..] == added;
    assert ed.imageLayers[..|old(ed.imageLayers)|] == old(ed.imageLayers);
  }

  /** Pairwise different indices below `n` are at most `n` many: each file loads at most once. */
  lemma {:induction false} DistinctIndicesBound(loads: seq<nat>, n: nat)
    requires forall k :: 0 <= k < |loads| ==> loads[k] < n
    requires forall j, k :: 0 <= j < k < |loads| ==> loads[j] != loads[k]
    ensures |loads| <= n
  {
    var s := set k | 0 <= k < |loads| :: loads[k];
    IndexSetSize(loads);
    BelowSize(s, n);
  }

  lemma {:induction false} IndexSetSize(loads: seq<nat>)
    requires forall j, k :: 0 <= j < k < |loads| ==> loads[j] != loads[k]
    ensures |set k | 0 <= k < |loads| :: loads[k]| == |loads|
  {
    if |loads| > 0 {
      var n := |loads| - 1;
      IndexSetSize(loads[..n]);
      var init := set k | 0 <= k < n :: loads[..n][k];
      assert (set k | 0 <= k < |loads| :: loads[k]) == init + {loads[n]};
      assert loads[n] !in init;
    }
  }

  lemma {:induction false} BelowSize(s: set<nat>, n: nat)
    requires forall x :: x in s ==> x < n
    ensures |s| <= n
  {
    if n == 0 {
      assert s == {};
    } else {
      BelowSize(s - {n - 1}, n - 1);
    }
  }

  /** The predicate `findIndex` searches with in `deleteLayer`. */
  function IdIs(layerId: int): Layer -> bool
  {
    (l: Layer) => l.id == layerId
  }

  /** `deleteLayer`: removes the first layer carrying `layerId`, keeping the others in order;
      the selection is cleared only when it carries that id. An absent id changes nothing. */
  method DeleteLayer(ed: Editor, layerId: int)
    requires ed.Valid()
    modifies ed
    ensures ed.Valid()
    ensures ed.layerCounter == old(ed.layerCounter)
    ensures match FindFirst(old(ed.imageLayers), IdIs(layerId))
            case None =>
              ed.imageLayers == old(ed.imageLayers) && ed.selectedLayer == old(ed.selectedLayer)
            case Some(i) =>
              && ed.imageLayers == RemoveAt(old(ed.imageLayers), i)
              && ed.selectedLayer == (if old(ed.selectedLayer).Some? && old(ed.selectedLayer).value.id == layerId
                                      then None else old(ed.selectedLayer))
  {
    var layerIndex := FindFirst(ed.imageLayers, IdIs(layerId));
    if layerIndex.None? {
      return;
    }
    ed.imageLayers := RemoveAt(ed.imageLayers, layerIndex.value);
    if ed.selectedLayer.Some? && ed.selectedLayer.value.id == layerId {
      ed.selectedLayer := None;
    }
  }

  /** Layer ids are pairwise different. */
  predicate DistinctIds(layers: seq<Layer>)
  {
    forall i, j :: 0 <= i < j < |layers| ==> layers[i].id != layers[j].id
  }

  /** When ids are pairwise different, deleting by id removes exactly the layer with that id:
      afterwards no layer carries it and every other layer is still present. */
  lemma DeleteRemovesExactlyId(layers: seq<Layer>, layerId: int)
    requires DistinctIds(layers)
    ensures match FindFirst(layers, IdIs(layerId))
            case None => forall l :: l in layers ==> l.id != layerId
            case Some(i) =>
              var rest := RemoveAt(layers, i);
              && DistinctIds(rest)
              && forall l :: l in rest <==> l in layers && l.id != layerId
  {
    match FindFirst(layers, IdIs(layerId))
    case None =>
      forall l | l in layers ensures l.id != layerId {
        var j :| 0 <= j < |layers| && layers[j] == l;
        assert !IdIs(layerId)(layers[j]);
      }
    case Some(i) =>
      var rest := RemoveAt(layers, i);
      assert layers[i].id == layerId by { assert IdIs(layerId)(layers[i]); }
      forall l ensures l in rest <==> l in layers && l.id != layerId {
        if l in rest {
          var j :| 0 <= j < |rest| && rest[j] == l;
          if j < i {
            assert l == layers[j];
          } else {
            assert l == layers[j + 1];
          }
        }
        if l in layers && l.id != layerId {
          var j :| 0 <= j < |layers| && layers[j] == l;
          if j < i {
            assert rest[j] == l;
          } else {
            assert j != i;
            assert rest[j - 1] == l;
          }
        }
      }
      forall a, b | 0 <= a < b < |rest| ensures rest[a].id != rest[b].id {
        var a', b' := if a < i then a else a + 1, if b < i then b else b + 1;
        assert rest[a] == layers[a'] && rest[b] == layers[b'];
      }
  }

  /** New layers take their ids from the counter, so while every id lies below the counter
      they stay pairwise different. */
  predicate IdsBelowCounter(ed: Editor)
    reads ed, ed.imageLayers
  {
    DistinctIds(ed.imageLayers) && forall l :: l in ed.imageLayers ==> l.id < ed.layerCounter
  }

  lemma AppendKeepsIdsBelow(layers: seq<Layer>, counter: int, l: Layer)
    requires DistinctIds(layers) && forall k :: k in layers ==> k.id < counter
    requires l.id == counter
    ensures DistinctIds(layers + [l]) && forall k :: k in layers + [l] ==> k.id < counter + 1
  {
    var s := layers + [l];
    forall a, b | 0 <= a < b < |s| ensures s[a].id != s[b].id {
      if b == |layers| {
        assert s[a] in layers;
      } else {
        assert s[a] == layers[a] && s[b] == layers[b];
      }
    }
  }
}
