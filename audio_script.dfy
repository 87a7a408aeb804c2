/** The audio player of js/audioScript.js: its `audioTracks` array and the `backgroundMusic`
    record declared at js/scriptControls.js:15-20, and the handlers that add, time, toggle,
    reorder and delete tracks and that choose the background track. Given an id no track
    carries, `toggleAudioTrack`, `toggleLoop` and `updateTrackVolume` stop with a TypeError
    before they change anything, and the other handlers return early; the model renders
    both as no change. */
module AudioScript {
  import opened JsMath
  import opened Common
  import opened TrackLists
  import opened Timeline

  /** A file picked in the audio input: its `name`, the id drawn for it from `Date.now()`
      and `Math.random()`, and the length its metadata will report. */
  datatype AudioFile = AudioFile(id: string, name: string, mediaDuration: real)

  /** A track record; `endTime` is `null` until the metadata has loaded. */
  datatype ScriptTrack = ScriptTrack(
    id: string,
    name: string,
    audio: AudioElement,
    isPlaying: bool,
    loop: bool,
    startTime: real,
    endTime: Option<real>,
    timelineMode: bool,
    originalDuration: Option<real>,
    playOrder: int,
    autoNext: bool,
    isBackground: bool)

  /** `backgroundMusic` */
  datatype BackgroundMusic = BackgroundMusic(
    trackId: Option<string>,
    isPlaying: bool,
    originalVolume: real,
    fadeVolume: real)

  /** The record as the script declares it. */
  const InitialBackground := BackgroundMusic(None, false, 0.8, 0.3)

  function IdOf(t: ScriptTrack): string { t.id }
  function PlayOrderOf(t: ScriptTrack): int { t.playOrder }

  /** `track.playOrder = o` */
  function WithPlayOrder(t: ScriptTrack, o: int): (r: ScriptTrack)
    ensures r.playOrder == o && r.id == t.id
  {
    t.(playOrder := o)
  }

  lemma PlayOrderIsSet()
    ensures OrderSetter(PlayOrderOf, WithPlayOrder)
  {
  }

  // ---------------------------------------------------------------------------------------
  // Adding tracks

  /** The record `addAudioTracks` pushes for `f` while the array holds `count` tracks. */
  function NewTrack(f: AudioFile, count: nat): ScriptTrack
  {
    ScriptTrack(f.id, f.name, NewAudio(f.mediaDuration), false, false, 0.0, None, false, None,
                count + 1, false, false)
  }

  function NewTracks(files: seq<AudioFile>, count: nat): (r: seq<ScriptTrack>)
    ensures |r| == |files| && forall k :: 0 <= k < |files| ==> r[k] == NewTrack(files[k], count + k)
  {
    seq(|files|, k requires 0 <= k < |files| => NewTrack(files[k], count + k))
  }

  lemma NewTracksSnoc(files: seq<AudioFile>, count: nat, last: nat)
    requires |files| > 0 && last == count + |files| - 1
    ensures var n := |files| - 1;
            NewTracks(files, count) == NewTracks(files[..n], count) + [NewTrack(files[n], last)]
  {
  }

  /** The array after `addAudioTracks(files)`: each file is pushed and, through
      `createAudioTrackUI`, the array is sorted by play order right after. */
  function Added(ts: seq<ScriptTrack>, files: seq<AudioFile>): seq<ScriptTrack>
  {
    if |files| == 0 then ts
    else
      var before := Added(ts, files[..|files| - 1]);
      SortByOrder(before + [NewTrack(files[|files| - 1], |before|)], PlayOrderOf)
  }

  /** Adding files adds exactly their records, numbered on from the existing count, to the
      tracks already there, and leaves the array sorted by play order. */
  lemma AddedSpec(ts: seq<ScriptTrack>, files: seq<AudioFile>)
    ensures |Added(ts, files)| == |ts| + |files|
    ensures multiset(Added(ts, files)) == multiset(ts + NewTracks(files, |ts|))
    ensures |files| > 0 ==> SortedBy(Added(ts, files), PlayOrderOf)
  {
    AddedPermutes(ts, files);
    if |files| > 0 {
      var n := |files| - 1;
      var before := Added(ts, files[..n]);
      SortByOrderSpec(before + [NewTrack(files[n], |before|)], PlayOrderOf);
    }
  }

  lemma {:induction false} AddedLength(ts: seq<ScriptTrack>, files: seq<AudioFile>)
    ensures |Added(ts, files)| == |ts| + |files|
  {
    if |files| > 0 {
      var n := |files| - 1;
      var before := Added(ts, files[..n]);
      AddedLength(ts, files[..n]);
      SortByOrderSpec(before + [NewTrack(files[n], |before|)], PlayOrderOf);
    }
  }

  lemma {:induction false} AddedPermutes(ts: seq<ScriptTrack>, files: seq<AudioFile>)
    ensures |Added(ts, files)| == |ts| + |files|
    ensures multiset(Added(ts, files)) == multiset(ts + NewTracks(files, |ts|))
  {
    AddedLength(ts, files);
    if |files| > 0 {
      var n := |files| - 1;
      var before := Added(ts, files[..n]);
      AddedPermutes(ts, files[..n]);
      var t := NewTrack(files[n], |before|);
      SortByOrderSpec(before + [t], PlayOrderOf);
      NewTracksSnoc(files, |ts|, |before|);
      var earlier := NewTracks(files[..n], |ts|);
      assert NewTracks(files, |ts|) == earlier + [t];
      assert ts + (earlier + [t]) == (ts + earlier) + [t];
      calc {
        multiset(Added(ts, files));
        multiset(SortByOrder(before + [t], PlayOrderOf));
        multiset(before + [t]);
        multiset(before) + multiset{t};
        multiset(ts + earlier) + multiset{t};
        multiset((ts + earlier) + [t]);
      }
    }
  }

  // ---------------------------------------------------------------------------------------
  // Timing a track

  /** `updateTimeSettings(trackId, type, value)` on one track: 'start' takes the value,
      'end' takes a positive value or else the audio's duration; then a start at or past
      the end (a `null` end counts as 0) is pulled back to 0.1 s before the end, but not
      below 0, and the timeline mode is flipped. */
  function WithTimeSetting(t: ScriptTrack, kind: string, v: real): ScriptTrack
  {
    StartCorrected(GivenSetting(t, kind, v))
  }

  /** The field write of `updateTimeSettings`, before the start is checked. */
  function GivenSetting(t: ScriptTrack, kind: string, v: real): ScriptTrack
  {
    if kind == "start" then t.(startTime := v)
    else if kind == "end" then t.(endTime := Some(if v > 0.0 then v else t.audio.duration))
    else t
  }

  /** The check of `updateTimeSettings` that keeps the start before the end. */
  function StartCorrected(g: ScriptTrack): ScriptTrack
  {
    var end := NumberOf(g.endTime);
    if g.startTime >= end then g.(startTime := Max(0.0, end - 0.1), timelineMode := !g.timelineMode)
    else g
  }

  /** An 'end' setting takes a positive value as it is and otherwise the audio's duration;
      any other setting keeps the end; nothing but the start, the end and the timeline mode
      changes. */
  lemma TimeSettingEnd(t: ScriptTrack, kind: string, v: real)
    ensures var r := WithTimeSetting(t, kind, v);
            && (kind == "end" ==> r.endTime == Some(if v > 0.0 then v else t.audio.duration))
            && (kind != "end" ==> r.endTime == t.endTime)
            && r.id == t.id && r.name == t.name && r.audio == t.audio && r.isPlaying == t.isPlaying
            && r.loop == t.loop && r.originalDuration == t.originalDuration && r.playOrder == t.playOrder
            && r.autoNext == t.autoNext && r.isBackground == t.isBackground
  {
    GivenKeeps(t, kind, v);
    CorrectedKeeps(GivenSetting(t, kind, v));
  }

  /** The field write changes only the field it names. */
  lemma GivenKeeps(t: ScriptTrack, kind: string, v: real)
    ensures var g := GivenSetting(t, kind, v);
            && (kind == "end" ==> g.endTime == Some(if v > 0.0 then v else t.audio.duration))
            && (kind != "end" ==> g.endTime == t.endTime)
            && g.id == t.id && g.name == t.name && g.audio == t.audio && g.isPlaying == t.isPlaying
            && g.loop == t.loop && g.originalDuration == t.originalDuration && g.playOrder == t.playOrder
            && g.autoNext == t.autoNext && g.isBackground == t.isBackground
  {
  }

  /** The correction changes only the start and the timeline mode. */
  lemma CorrectedKeeps(g: ScriptTrack)
    ensures var r := StartCorrected(g);
            && r.endTime == g.endTime
            && r.id == g.id && r.name == g.name && r.audio == g.audio && r.isPlaying == g.isPlaying
            && r.loop == g.loop && r.originalDuration == g.originalDuration && r.playOrder == g.playOrder
            && r.autoNext == g.autoNext && r.isBackground == g.isBackground
  {
  }

  /** After a setting the start lies before a positive end; a start before the end is
      kept together with the timeline mode, and one at or past it is pulled back to a
      start that is not negative and flips the mode. */
  lemma TimeSettingStart(t: ScriptTrack, kind: string, v: real)
    ensures var r := WithTimeSetting(t, kind, v);
            var start := if kind == "start" then v else t.startTime;
            && (NumberOf(r.endTime) > 0.0 ==> r.startTime < NumberOf(r.endTime))
            && (start < NumberOf(r.endTime) ==> r.startTime == start && r.timelineMode == t.timelineMode)
            && (start >= NumberOf(r.endTime) ==> r.startTime >= 0.0 && r.timelineMode == !t.timelineMode)
  {
    TimeSettingEnd(t, kind, v);
  }

  /** Before the metadata has loaded the end is `null`, so any start that is not negative
      is pulled back to 0 and flips the timeline mode. */
  lemma StartBeforeMetadataResets(t: ScriptTrack, v: real)
    requires t.endTime.None? && v >= 0.0
    ensures WithTimeSetting(t, "start", v).startTime == 0.0
    ensures WithTimeSetting(t, "start", v).timelineMode == !t.timelineMode
  {
  }

  /** The mode is flipped, not set: entering the same out-of-range start twice restores
      the original timeline mode. */
  lemma RepeatedStartFlipsBack(t: ScriptTrack, v: real)
    requires v >= NumberOf(t.endTime)
    ensures WithTimeSetting(WithTimeSetting(t, "start", v), "start", v).timelineMode == t.timelineMode
  {
  }

  /** An 'end' setting that leaves a positive end is idempotent. */
  lemma EndSettingIdempotent(t: ScriptTrack, v: real)
    requires NumberOf(WithTimeSetting(t, "end", v).endTime) > 0.0
    ensures WithTimeSetting(WithTimeSetting(t, "end", v), "end", v) == WithTimeSetting(t, "end", v)
  {
    TimeSettingEnd(t, "end", v);
    TimeSettingStart(t, "end", v);
  }

  // ---------------------------------------------------------------------------------------
  // Playing a track by hand

  /** Starting a track that is not the background one while the background music plays
      calls `fadeBackgroundMusic`, which no file of the repository defines: the call throws
      a ReferenceError before the track is started. */
  predicate FadeThrows(t: ScriptTrack, bg: BackgroundMusic)
  {
    !t.isPlaying && !t.isBackground && bg.isPlaying
  }

  /** `toggleAudioTrack` on one track: a playing track is paused; a stopped one is moved to
      its start when in timeline mode with a positive start, and played, unless the call of
      `fadeBackgroundMusic` throws first. The background record mirrors the background
      track's state. */
  function Toggled(t: ScriptTrack, bg: BackgroundMusic): (ScriptTrack, BackgroundMusic)
  {
    if t.isPlaying then
      (t.(audio := Pause(t.audio), isPlaying := false), if t.isBackground then bg.(isPlaying := false) else bg)
    else if FadeThrows(t, bg) then
      (t, bg)
    else
      var a := if t.timelineMode && t.startTime > 0.0 then t.audio.(currentTime := t.startTime) else t.audio;
      (t.(audio := a.(playing := true), isPlaying := true), if t.isBackground then bg.(isPlaying := true) else bg)
  }

  /** A toggle that does not throw flips the track's playing state and its element's; the
      background record follows the background track and is untouched by any other;
      nothing but the track's audio and flag changes, and the position moves only when
      playback starts at a positive start in timeline mode. One that throws changes
      nothing. */
  lemma ToggledSpec(t: ScriptTrack, bg: BackgroundMusic)
    ensures FadeThrows(t, bg) ==> Toggled(t, bg) == (t, bg)
    ensures !FadeThrows(t, bg) ==>
            var (r, rb) := Toggled(t, bg);
            && r.isPlaying == !t.isPlaying && r.audio.playing == !t.isPlaying
            && (t.isBackground ==> rb == bg.(isPlaying := r.isPlaying))
            && (!t.isBackground ==> rb == bg)
            && r.(audio := t.audio, isPlaying := t.isPlaying) == t
            && r.audio.(playing := t.audio.playing, currentTime := t.audio.currentTime) == t.audio
            && (!t.isPlaying && t.timelineMode && t.startTime > 0.0 ==> r.audio.currentTime == t.startTime)
            && (t.isPlaying || !t.timelineMode || t.startTime <= 0.0 ==> r.audio.currentTime == t.audio.currentTime)
  {
  }

  /** Toggling twice restores the track's state and, for the background track, the
      background record's; only the position may have moved. The exception is a track
      other than the background one paused while the background music plays: the second
      toggle throws, and the track stays paused. */
  lemma ToggledTwice(t: ScriptTrack, bg: BackgroundMusic)
    requires t.audio.playing == t.isPlaying
    requires t.isBackground ==> bg.isPlaying == t.isPlaying
    ensures var (r, rb) := Toggled(t, bg);
            var (r2, rb2) := Toggled(r, rb);
            if t.isPlaying && !t.isBackground && bg.isPlaying then
              (r2, rb2) == (r, rb) && !r2.isPlaying && rb2 == bg
            else
              && r2.(audio := t.audio) == t && r2.audio.(currentTime := t.audio.currentTime) == t.audio
              && rb2 == bg
  {
    ToggledSpec(t, bg);
    var (r, rb) := Toggled(t, bg);
    ToggledSpec(r, rb);
  }

  /** The `ended` event of a track's element: the element stops at the end of its file.
      The listener calls `onTrackEnded`, which no file of the repository defines, so it
      throws a ReferenceError and the record, `isPlaying` included, stays as it was. */
  function ElementEnded(t: ScriptTrack): (r: ScriptTrack)
    ensures !r.audio.playing && r.isPlaying == t.isPlaying
    ensures r.audio.(playing := t.audio.playing) == t.audio && r.(audio := t.audio) == t
  {
    t.(audio := Pause(t.audio))
  }

  /** After a track has played to its end, the first toggle finds `isPlaying` still set and
      only pauses: the track stays silent until it is toggled a second time. */
  lemma EndedNeedsSecondToggle(t: ScriptTrack, bg: BackgroundMusic)
    requires t.isPlaying
    ensures var (r, _) := Toggled(ElementEnded(t), bg);
            !r.isPlaying && !r.audio.playing && r.audio.currentTime == t.audio.currentTime
  {
  }

  // ---------------------------------------------------------------------------------------
  // The background track

  /** The forEach of `toggleBackgroundMusic(id, true)`: every other background track is
      cleared. */
  function ClearedBackgrounds(ts: seq<ScriptTrack>, id: string): (r: seq<ScriptTrack>)
    ensures |r| == |ts| && forall k :: 0 <= k < |ts| ==> r[k].id == ts[k].id
    ensures forall k :: 0 <= k < |ts| ==> r[k] == (if ts[k].id != id && ts[k].isBackground then ts[k].(isBackground := false) else ts[k])
  {
    seq(|ts|, k requires 0 <= k < |ts| =>
      if ts[k].id != id && ts[k].isBackground then ts[k].(isBackground := false) else ts[k])
  }

  /** `toggleBackgroundMusic(id, enabled)` once `find` has found index `i`. Enabling clears
      the other background tracks, marks the track as background with its element looping,
      records its id and volume, starts it through `toggleAudioTrack` when it is not
      playing, and marks the background music as playing. Disabling unmarks the track,
      stops its element looping and clears the record, without pausing the track. */
  function BackgroundSet(ts: seq<ScriptTrack>, bg: BackgroundMusic, i: nat, enabled: bool): (seq<ScriptTrack>, BackgroundMusic)
    requires i < |ts|
  {
    if enabled then
      var cleared := ClearedBackgrounds(ts, ts[i].id);
      var t := cleared[i].(isBackground := true, audio := cleared[i].audio.(loop := true));
      var chosen := bg.(trackId := Some(ts[i].id), originalVolume := t.audio.volume);
      var toggled := if !t.isPlaying then Toggled(t, chosen) else (t, chosen);
      (cleared[i := toggled.0], toggled.1.(isPlaying := true))
    else
      (ts[i := ts[i].(isBackground := false, audio := ts[i].audio.(loop := false))],
       bg.(trackId := None, isPlaying := false))
  }

  /** Enabling leaves the chosen track the background one, looping and playing, with the
      record naming it and its volume; another track keeps everything but its background
      flag, and is a background track afterwards only if it carries the same id. Disabling
      unmarks the chosen track, stops it looping, clears the record and touches no other
      track. */
  lemma BackgroundSetSpec(ts: seq<ScriptTrack>, bg: BackgroundMusic, i: nat, enabled: bool)
    requires i < |ts|
    ensures var (r, rb) := BackgroundSet(ts, bg, i, enabled);
            && |r| == |ts|
            && (forall k :: 0 <= k < |ts| ==> r[k].id == ts[k].id)
            && (enabled ==>
                  && r[i].isBackground && r[i].audio.loop && r[i].isPlaying
                  && rb == BackgroundMusic(Some(ts[i].id), true, ts[i].audio.volume, bg.fadeVolume)
                  && (forall k :: 0 <= k < |ts| && k != i ==> r[k].(isBackground := ts[k].isBackground) == ts[k])
                  && (forall k :: 0 <= k < |ts| && r[k].isBackground ==> r[k].id == ts[i].id))
            && (!enabled ==>
                  && !r[i].isBackground && !r[i].audio.loop
                  && r[i].(isBackground := ts[i].isBackground, audio := ts[i].audio) == ts[i]
                  && rb == bg.(trackId := None, isPlaying := false)
                  && (forall k :: 0 <= k < |ts| && k != i ==> r[k] == ts[k]))
  {
    if enabled {
      var cleared := ClearedBackgrounds(ts, ts[i].id);
      var t := cleared[i].(isBackground := true, audio := cleared[i].audio.(loop := true));
      var chosen := bg.(trackId := Some(ts[i].id), originalVolume := t.audio.volume);
      ToggledSpec(t, chosen);
    }
  }

  /** With pairwise different ids, enabling leaves exactly the chosen track as the
      background track. */
  lemma SingleBackground(ts: seq<ScriptTrack>, bg: BackgroundMusic, i: nat)
    requires i < |ts| && DistinctKeys(ts, IdOf)
    ensures var (r, _) := BackgroundSet(ts, bg, i, true);
            forall k :: 0 <= k < |r| ==> (r[k].isBackground <==> k == i)
  {
    BackgroundSetSpec(ts, bg, i, true);
    var (r, _) := BackgroundSet(ts, bg, i, true);
    forall k | 0 <= k < |r| && r[k].isBackground ensures k == i {
      assert IdOf(ts[k]) == IdOf(ts[i]);
    }
  }

  // ---------------------------------------------------------------------------------------
  // The player

  /** The body of `updateTimeSettings` on the found track: the field writes one after the
      other, then the correction of a start at or past the end. */
  method ApplyTimeSetting(t: ScriptTrack, kind: string, value: real) returns (track: ScriptTrack)
    ensures track == WithTimeSetting(t, kind, value)
  {
    track := t;
    if kind == "start" {
      track := track.(startTime := value);
    } else if kind == "end" {
      track := track.(endTime := Some(if value > 0.0 then value else track.audio.duration));
    }
    if track.startTime >= NumberOf(track.endTime) {
      track := track.(startTime := Max(0.0, NumberOf(track.endTime) - 0.1), timelineMode := !track.timelineMode);
    }
  }

  /** The state of js/audioScript.js: `audioTracks` and `backgroundMusic`. */
  class AudioPlayer {
    var audioTracks: seq<ScriptTrack>
    var backgroundMusic: BackgroundMusic

    constructor ()
      ensures audioTracks == [] && backgroundMusic == InitialBackground
    {
      audioTracks := [];
      backgroundMusic := InitialBackground;
    }

    /** `reorderAudioDisplay`: the `sort` of the array by ascending play order. */
    method ReorderAudioDisplay()
      modifies this
      ensures backgroundMusic == old(backgroundMusic)
      ensures audioTracks == SortByOrder(old(audioTracks), PlayOrderOf)
    {
      audioTracks := SortByOrder(audioTracks, PlayOrderOf);
    }

    /** `addAudioTracks(files)`: each file's record is pushed, and `createAudioTrackUI`
        sorts the array after each push. */
    method AddAudioTracks(files: seq<AudioFile>)
      modifies this
      ensures backgroundMusic == old(backgroundMusic)
      ensures audioTracks == Added(old(audioTracks), files)
    {
      ghost var before := audioTracks;
      for k := 0 to |files|
        invariant audioTracks == Added(before, files[..k])
        invariant backgroundMusic == old(backgroundMusic)
      {
        var file := files[k];
        var track := ScriptTrack(file.id, file.name, NewAudio(file.mediaDuration), false, false, 0.0, None,
                                 false, None, |audioTracks| + 1, false, false);
        audioTracks := audioTracks + [track];
        assert files[..k + 1][..k] == files[..k];
        ReorderAudioDisplay();
      }
      assert files[..|files|] == files;
    }

    /** The `ended` event of the track at index `k`; its `timeupdate` listener, which calls
        the undefined `updateTimeDisplay`, throws the same way and changes nothing. A looping
        element never ends. */
    method Ended(k: nat)
      requires k < |audioTracks| && !audioTracks[k].audio.loop
      modifies this
      ensures backgroundMusic == old(backgroundMusic)
      ensures audioTracks == old(audioTracks)[k := ElementEnded(old(audioTracks)[k])]
    {
      var track := audioTracks[k];
      track := track.(audio := Pause(track.audio));
      audioTracks := audioTracks[k := track];
    }

    /** The `loadedmetadata` listener of the track at index `k`: its end becomes the
        element's duration, replacing any end set before. */
    method MetadataLoaded(k: nat)
      requires k < |audioTracks|
      modifies this
      ensures backgroundMusic == old(backgroundMusic)
      ensures audioTracks == old(audioTracks)[k := old(audioTracks)[k].(endTime := Some(old(audioTracks)[k].audio.duration))]
    {
      var track := audioTracks[k];
      track := track.(endTime := Some(track.audio.duration));
      audioTracks := audioTracks[k := track];
    }

    /** `moveTrackUp(trackId)`: the two `find` calls are `UpPair`; the previous track's order
        goes up by one, the track's down by one, and the array is sorted again. */
    method MoveTrackUp(trackId: string)
      modifies this
      ensures backgroundMusic == old(backgroundMusic)
      ensures audioTracks == MovedUp(old(audioTracks), IdOf, PlayOrderOf, WithPlayOrder, trackId)
    {
      ghost var s := audioTracks;
      var pair := UpPair(audioTracks, IdOf, PlayOrderOf, trackId);
      if pair.Some? {
        var (i, j) := pair.value;
        var trackOrder, prevOrder := PlayOrderOf(audioTracks[i]) - 1, PlayOrderOf(audioTracks[j]) + 1;
        MovedUpIs(s, IdOf, PlayOrderOf, WithPlayOrder, trackId, i, j, trackOrder, prevOrder);
        audioTracks := Retagged(audioTracks, i, j, trackOrder, prevOrder, WithPlayOrder);
        ReorderAudioDisplay();
      }
    }

    /** `moveTrackDown(trackId)`: the `find` calls and the `Math.max` test are `DownPair`;
        the next track's order goes down by one, the track's up by one, and the array is
        sorted again. */
    method MoveTrackDown(trackId: string)
      modifies this
      ensures backgroundMusic == old(backgroundMusic)
      ensures audioTracks == MovedDown(old(audioTracks), IdOf, PlayOrderOf, WithPlayOrder, trackId)
    {
      ghost var s := audioTracks;
      var pair := DownPair(audioTracks, IdOf, PlayOrderOf, trackId);
      if pair.Some? {
        var (i, j) := pair.value;
        var trackOrder, nextOrder := PlayOrderOf(audioTracks[i]) + 1, PlayOrderOf(audioTracks[j]) - 1;
        MovedDownIs(s, IdOf, PlayOrderOf, WithPlayOrder, trackId, i, j, trackOrder, nextOrder);
        audioTracks := Retagged(audioTracks, i, j, trackOrder, nextOrder, WithPlayOrder);
        ReorderAudioDisplay();
      }
    }

    /** `toggleAudioTrack(trackId)`; the call of the undefined `fadeBackgroundMusic` throws,
        which ends the handler with nothing changed. */
    method ToggleAudioTrack(trackId: string)
      modifies this
      ensures match FindFirst(old(audioTracks), KeyIs(IdOf, trackId))
              case None => audioTracks == old(audioTracks) && backgroundMusic == old(backgroundMusic)
              case Some(i) =>
                var (t, bg) := Toggled(old(audioTracks)[i], old(backgroundMusic));
                audioTracks == old(audioTracks)[i := t] && backgroundMusic == bg
    {
      var found := FindFirst(audioTracks, KeyIs(IdOf, trackId));
      if found.None? {
        return;
      }
      var i := found.value;
      var track := audioTracks[i];
      if track.isPlaying {
        track := track.(audio := Pause(track.audio));
        track := track.(isPlaying := false);
        if track.isBackground {
          backgroundMusic := backgroundMusic.(isPlaying := false);
        }
      } else {
        if !track.isBackground && backgroundMusic.isPlaying {
          return;
        }
        if track.timelineMode && track.startTime > 0.0 {
          track := track.(audio := track.audio.(currentTime := track.startTime));
        }
        track := track.(audio := track.audio.(playing := true));
        track := track.(isPlaying := true);
        if track.isBackground {
          backgroundMusic := backgroundMusic.(isPlaying := true);
        }
      }
      audioTracks := audioTracks[i := track];
    }

    /** `toggleLoop(trackId)`: flips the track's own `loop` flag (not its element's). */
    method ToggleLoop(trackId: string)
      modifies this
      ensures backgroundMusic == old(backgroundMusic)
      ensures match FindFirst(old(audioTracks), KeyIs(IdOf, trackId))
              case None => audioTracks == old(audioTracks)
              case Some(i) => audioTracks == old(audioTracks)[i := old(audioTracks)[i].(loop := !old(audioTracks)[i].loop)]
    {
      var found := FindFirst(audioTracks, KeyIs(IdOf, trackId));
      if found.Some? {
        var track := audioTracks[found.value];
        track := track.(loop := !track.loop);
        audioTracks := audioTracks[found.value := track];
      }
    }

    /** `updateTrackVolume(trackId, volume)`, with the parsed volume. */
    method UpdateTrackVolume(trackId: string, volume: real)
      modifies this
      ensures backgroundMusic == old(backgroundMusic)
      ensures match FindFirst(old(audioTracks), KeyIs(IdOf, trackId))
              case None => audioTracks == old(audioTracks)
              case Some(i) => audioTracks == old(audioTracks)[i := old(audioTracks)[i].(audio := old(audioTracks)[i].audio.(volume := volume))]
    {
      var found := FindFirst(audioTracks, KeyIs(IdOf, trackId));
      if found.Some? {
        var track := audioTracks[found.value];
        track := track.(audio := track.audio.(volume := volume));
        audioTracks := audioTracks[found.value := track];
      }
    }

    /** `updateAutoNext(trackId, enabled)`. */
    method UpdateAutoNext(trackId: string, enabled: bool)
      modifies this
      ensures backgroundMusic == old(backgroundMusic)
      ensures match FindFirst(old(audioTracks), KeyIs(IdOf, trackId))
              case None => audioTracks == old(audioTracks)
              case Some(i) => audioTracks == old(audioTracks)[i := old(audioTracks)[i].(autoNext := enabled)]
    {
      var found := FindFirst(audioTracks, KeyIs(IdOf, trackId));
      if found.Some? {
        var track := audioTracks[found.value];
        track := track.(autoNext := enabled);
        audioTracks := audioTracks[found.value := track];
      }
    }

    /** `deleteAudioTrack(trackId)`: the first track with the id is spliced out (the pause of
        its element reaches no track left in the array); an unknown id changes nothing. The background record is left as it was, even when
        it names the deleted track. */
    method DeleteAudioTrack(trackId: string)
      modifies this
      ensures backgroundMusic == old(backgroundMusic)
      ensures match FindFirst(old(audioTracks), KeyIs(IdOf, trackId))
              case None => audioTracks == old(audioTracks)
              case Some(i) => audioTracks == RemoveAt(old(audioTracks), i)
    {
      var trackIndex := FindFirst(audioTracks, KeyIs(IdOf, trackId));
      if trackIndex.Some? {
        audioTracks := RemoveAt(audioTracks, trackIndex.value);
      }
    }

    /** `updateTimeSettings(trackId, type, value)`, with the parsed value. */
    method UpdateTimeSettings(trackId: string, kind: string, value: real)
      modifies this
      ensures backgroundMusic == old(backgroundMusic)
      ensures match FindFirst(old(audioTracks), KeyIs(IdOf, trackId))
              case None => audioTracks == old(audioTracks)
              case Some(i) => audioTracks == old(audioTracks)[i := WithTimeSetting(old(audioTracks)[i], kind, value)]
    {
      var found := FindFirst(audioTracks, KeyIs(IdOf, trackId));
      if found.None? {
        return;
      }
      var i := found.value;
      var track := ApplyTimeSetting(audioTracks[i], kind, value);
      audioTracks := audioTracks[i := track];
    }

    /** The forEach of `toggleBackgroundMusic(id, true)`. */
    method ClearOtherBackgrounds(trackId: string)
      modifies this
      ensures backgroundMusic == old(backgroundMusic)
      ensures audioTracks == ClearedBackgrounds(old(audioTracks), trackId)
    {
      ghost var before := audioTracks;
      var i := 0;
      while i < |audioTracks|
        invariant 0 <= i <= |audioTracks| == |before|
        invariant backgroundMusic == old(backgroundMusic)
        invariant forall k :: 0 <= k < i ==> audioTracks[k] == ClearedBackgrounds(before, trackId)[k]
        invariant forall k :: i <= k < |before| ==> audioTracks[k] == before[k]
      {
        var t := audioTracks[i];
        if t.id != trackId && t.isBackground {
          t := t.(isBackground := false);
          audioTracks := audioTracks[i := t];
        }
        i := i + 1;
      }
    }

    /** `toggleBackgroundMusic(trackId, enabled)`; an unknown id changes nothing. */
    method ToggleBackgroundMusic(trackId: string, enabled: bool)
      modifies this
      ensures match FindFirst(old(audioTracks), KeyIs(IdOf, trackId))
              case None => audioTracks == old(audioTracks) && backgroundMusic == old(backgroundMusic)
              case Some(i) => (audioTracks, backgroundMusic) == BackgroundSet(old(audioTracks), old(backgroundMusic), i, enabled)
    {
      var found := FindFirst(audioTracks, KeyIs(IdOf, trackId));
      if found.None? {
        return;
      }
      if enabled {
        EnableBackground(trackId, found.value);
      } else {
        DisableBackground(found.value);
      }
    }

    /** The `enabled` branch, for the track `find` found at index `i`. */
    method EnableBackground(trackId: string, i: nat)
      requires i < |audioTracks| && audioTracks[i].id == trackId
      requires forall j :: 0 <= j < i ==> audioTracks[j].id != trackId
      modifies this
      ensures (audioTracks, backgroundMusic) == BackgroundSet(old(audioTracks), old(backgroundMusic), i, true)
    {
      ghost var s, bg := audioTracks, backgroundMusic;
      ghost var cleared := ClearedBackgrounds(s, trackId);
      ClearOtherBackgrounds(trackId);
      var track := audioTracks[i];
      track := track.(isBackground := true);
      track := track.(audio := track.audio.(loop := true));
      audioTracks := audioTracks[i := track];
      backgroundMusic := backgroundMusic.(trackId := Some(trackId), originalVolume := track.audio.volume);
      ghost var chosen := backgroundMusic;
      if !track.isPlaying {
        forall j | 0 <= j < i ensures !KeyIs(IdOf, trackId)(audioTracks[j]) {
          assert audioTracks[j].id == cleared[j].id == s[j].id != trackId;
          assert KeyIs(IdOf, trackId)(audioTracks[j]) == (IdOf(audioTracks[j]) == trackId);
        }
        assert KeyIs(IdOf, trackId)(audioTracks[i]) by {
          assert IdOf(audioTracks[i]) == trackId;
        }
        FindFirstAt(audioTracks, KeyIs(IdOf, trackId), i);
        ToggleAudioTrack(trackId);
        assert audioTracks == cleared[i := Toggled(track, chosen).0];
      }
      backgroundMusic := backgroundMusic.(isPlaying := true);
    }

    /** The branch that turns the background music off, for the track at index `i`. */
    method DisableBackground(i: nat)
      requires i < |audioTracks|
      modifies this
      ensures (audioTracks, backgroundMusic) == BackgroundSet(old(audioTracks), old(backgroundMusic), i, false)
    {
      var track := audioTracks[i];
      track := track.(isBackground := false);
      track := track.(audio := track.audio.(loop := false));
      audioTracks := audioTracks[i := track];
      backgroundMusic := backgroundMusic.(trackId := None, isPlaying := false);
    }
  }
}
