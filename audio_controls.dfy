/** The editor's audio timeline (js/audioControls.js): the `audioTracks` array, the
    `globalTimeline` record, and the handlers that add, time, reorder and delete tracks and
    that play the timeline frame by frame. `now`, in milliseconds, stands for `Date.now()`;
    each call of `UpdateTimeline` is one animation frame. */
module AudioControls {
  import opened JsMath
  import opened Common
  import opened TrackLists
  import opened Timeline

  /** A file picked in the audio input: its `name`, the id `addAudioTracks` draws for it
      from `Date.now()` and `Math.random()`, and the length its metadata will report. */
  datatype AudioFile = AudioFile(id: string, name: string, mediaDuration: real)

  /** A track record of `audioTracks`; `endTime` and `duration` are `null` until known. */
  datatype Track = Track(
    id: string,
    name: string,
    audio: AudioElement,
    isPlaying: bool,
    startTime: real,
    endTime: Option<real>,
    duration: Option<real>,
    timelineActive: bool,
    playOrder: int,
    isBackground: bool)

  function IdOf(t: Track): string { t.id }
  function PlayOrderOf(t: Track): int { t.playOrder }
  function EndOf(t: Track): Option<real> { t.endTime }

  /** `track.playOrder = o` */
  function WithPlayOrder(t: Track, o: int): (r: Track)
    ensures r.playOrder == o && r.endTime == t.endTime && r.id == t.id
  {
    t.(playOrder := o)
  }

  lemma PlayOrderIsSet()
    ensures OrderSetter(PlayOrderOf, WithPlayOrder)
  {
  }

  // ---------------------------------------------------------------------------------------
  // Adding tracks

  /** The record `addAudioTracks` pushes for `f` while the array holds `count` tracks. */
  function NewTrack(f: AudioFile, count: nat): Track
  {
    Track(f.id, f.name, NewAudio(f.mediaDuration), false, 0.0, None, None, false, count + 1, false)
  }

  /** The records of one `addAudioTracks(files)` call onto an array of `count` tracks. */
  function NewTracks(files: seq<AudioFile>, count: nat): (r: seq<Track>)
    ensures |r| == |files| && forall k :: 0 <= k < |files| ==> r[k] == NewTrack(files[k], count + k)
  {
    seq(|files|, k requires 0 <= k < |files| => NewTrack(files[k], count + k))
  }

  /** New tracks are numbered on from the existing ones, start at 0 with no end or
      duration, are inactive and silent, and do not change the timeline's length. */
  lemma NewTracksSpec(ts: seq<Track>, files: seq<AudioFile>)
    ensures var added := NewTracks(files, |ts|);
            && (forall k :: 0 <= k < |added| ==>
                  && added[k].playOrder == |ts| + 1 + k && added[k].id == files[k].id
                  && added[k].startTime == 0.0 && added[k].endTime.None? && added[k].duration.None?
                  && !added[k].timelineActive && !added[k].isPlaying && !added[k].audio.playing
                  && added[k].audio.volume == 0.8 && !added[k].audio.loop)
            && MaxEnd(Mapped(ts + added, EndOf)) == MaxEnd(Mapped(ts, EndOf))
  {
    var added := NewTracks(files, |ts|);
    var ends := Mapped(ts + added, EndOf);
    assert ends == Mapped(ts, EndOf) + Mapped(added, EndOf) by {
      forall q | 0 <= q < |ends| ensures ends[q] == (Mapped(ts, EndOf) + Mapped(added, EndOf))[q] {
        if q < |ts| {
          assert (ts + added)[q] == ts[q];
        } else {
          assert (ts + added)[q] == added[q - |ts|];
        }
      }
    }
    MaxEndIgnoresMissing(Mapped(ts, EndOf), Mapped(added, EndOf));
  }

  // ---------------------------------------------------------------------------------------
  // The timeline's length

  /** `updateTimelineDuration`: the largest truthy `endTime` of `ends`, or 0. */
  function MaxEnd(ends: seq<Option<real>>): real
  {
    if |ends| == 0 then 0.0
    else
      var m := MaxEnd(ends[..|ends| - 1]);
      var e := ends[|ends| - 1];
      if Present(e) && e.value > m then e.value else m
  }

  /** The length is at least 0, at least every end, and is either 0 or one of the truthy
      ends. */
  lemma {:induction false} MaxEndSpec(ends: seq<Option<real>>)
    ensures MaxEnd(ends) >= 0.0
    ensures forall k :: 0 <= k < |ends| && ends[k].Some? ==> ends[k].value <= MaxEnd(ends)
    ensures MaxEnd(ends) == 0.0 || exists k :: 0 <= k < |ends| && Present(ends[k]) && ends[k].value == MaxEnd(ends)
  {
    if |ends| > 0 {
      var n := |ends| - 1;
      var front := ends[..n];
      MaxEndSpec(front);
      assert forall k :: 0 <= k < n ==> front[k] == ends[k];
      if MaxEnd(front) != 0.0 {
        var k :| 0 <= k < n && Present(front[k]) && front[k].value == MaxEnd(front);
        assert ends[k] == front[k];
      }
    }
  }

  /** The length depends only on the multiset of ends, not on the order of the tracks. */
  lemma MaxEndPermutes(a: seq<Option<real>>, b: seq<Option<real>>)
    requires multiset(a) == multiset(b)
    ensures MaxEnd(a) == MaxEnd(b)
  {
    MaxEndSpec(a);
    MaxEndSpec(b);
    if MaxEnd(a) != 0.0 {
      var k :| 0 <= k < |a| && Present(a[k]) && a[k].value == MaxEnd(a);
      assert a[k] in multiset(b);
    }
    if MaxEnd(b) != 0.0 {
      var k :| 0 <= k < |b| && Present(b[k]) && b[k].value == MaxEnd(b);
      assert b[k] in multiset(a);
    }
  }

  /** Tracks without an end add nothing to the length. */
  lemma {:induction false} MaxEndIgnoresMissing(ends: seq<Option<real>>, extra: seq<Option<real>>)
    requires forall k :: 0 <= k < |extra| ==> extra[k].None?
    ensures MaxEnd(ends + extra) == MaxEnd(ends)
  {
    if |extra| == 0 {
      assert ends + extra == ends;
    } else {
      var n := |extra| - 1;
      MaxEndIgnoresMissing(ends, extra[..n]);
      assert (ends + extra)[..|ends + extra| - 1] == ends + extra[..n];
    }
  }

  /** The length of the timeline for `ts`. */
  function TimelineLength(ts: seq<Track>): real
  {
    MaxEnd(Mapped(ts, EndOf))
  }

  /** Tracks that are a permutation of each other give the timeline the same length. */
  lemma PermutedLength(ts: seq<Track>, us: seq<Track>)
    requires multiset(ts) == multiset(us)
    ensures TimelineLength(ts) == TimelineLength(us)
  {
    PermutedMapped(ts, us, EndOf);
    MaxEndPermutes(Mapped(ts, EndOf), Mapped(us, EndOf));
  }

  // ---------------------------------------------------------------------------------------
  // Timing a track

  /** The `loadedmetadata` listener: the duration becomes known, and a track without an
      end ends that long after its start. */
  function Loaded(t: Track): (r: Track)
    ensures r.duration == Some(t.audio.duration)
    ensures t.endTime.Some? ==> r.endTime == t.endTime
    ensures t.endTime.None? ==> r.endTime == Some(t.startTime + t.audio.duration)
    ensures r.(duration := t.duration, endTime := t.endTime) == t
  {
    var u := t.(duration := Some(t.audio.duration));
    if u.endTime == None then u.(endTime := Some(u.startTime + u.duration.value)) else u
  }

  /** `updateTimelineSettings` on the track record: 'start' clamps the start at 0 and, when
      the duration is known and the end no longer lies after the start, moves the end to
      start + duration; 'end' keeps the end at least 0.1 s after the start; any other kind
      changes nothing. */
  function WithSetting(t: Track, kind: string, v: real): (r: Track)
    ensures kind == "start" ==>
              && r.startTime == Max(0.0, v) && r.startTime >= 0.0
              && (if Present(t.duration) && NumberOf(t.endTime) <= r.startTime
                  then r.endTime == Some(r.startTime + t.duration.value)
                  else r.endTime == t.endTime)
              && (t.duration.Some? && t.duration.value > 0.0 ==> r.endTime.Some? && r.endTime.value > r.startTime)
              && r.(startTime := t.startTime, endTime := t.endTime) == t
    ensures kind == "end" ==>
              && r.endTime == Some(Max(t.startTime + 0.1, v))
              && r.endTime.value > r.startTime && r.endTime.value >= v
              && r.(endTime := t.endTime) == t
    ensures kind != "start" && kind != "end" ==> r == t
  {
    if kind == "start" then
      var u := t.(startTime := Max(0.0, v));
      if Present(u.duration) && NumberOf(u.endTime) <= u.startTime
      then u.(endTime := Some(u.startTime + u.duration.value)) else u
    else if kind == "end" then
      t.(endTime := Some(Max(t.startTime + 0.1, v)))
    else t
  }

  /** The `ended` event of a track's element: the element has stopped at the end of its
      file, and the listener marks the track not playing and rewinds it to 0. The timeline
      flag is left as it was. */
  function EndedTrack(t: Track): (r: Track)
    ensures !r.isPlaying && !r.audio.playing && r.audio.currentTime == 0.0
    ensures r.timelineActive == t.timelineActive && r.endTime == t.endTime
    ensures r.audio.(playing := t.audio.playing, currentTime := t.audio.currentTime) == t.audio
    ensures r.(audio := t.audio, isPlaying := t.isPlaying) == t
  {
    t.(isPlaying := false, audio := Pause(t.audio).(currentTime := 0.0))
  }

  /** A track whose element ended while the timeline still has it active is not started
      again by later frames inside its window: the frame sees it active and leaves it
      silent. Only when its window is left is it marked inactive. */
  lemma EndedStaysSilent(t: Track, elapsed: real)
    requires t.timelineActive
    ensures SoundsAt(t, elapsed) ==> StepTrack(EndedTrack(t), elapsed) == EndedTrack(t)
    ensures !StepTrack(EndedTrack(t), elapsed).audio.playing
    ensures StepTrack(EndedTrack(t), elapsed).timelineActive == SoundsAt(t, elapsed)
  {
  }

  /** Ending one track leaves the timeline's length as it was. */
  lemma EndedKeepsLength(ts: seq<Track>, k: nat)
    requires k < |ts|
    ensures TimelineLength(ts[k := EndedTrack(ts[k])]) == TimelineLength(ts)
  {
    assert Mapped(ts[k := EndedTrack(ts[k])], EndOf) == Mapped(ts, EndOf);
  }

  // ---------------------------------------------------------------------------------------
  // Playing the timeline

  /** The forEach of `stopTimeline` and of the loop restart: pause, rewind, inactive. */
  function StopTrack(t: Track): (r: Track)
    ensures !r.timelineActive && !r.audio.playing && r.audio.currentTime == 0.0
    ensures r.audio.(playing := t.audio.playing, currentTime := t.audio.currentTime) == t.audio
    ensures r.(audio := t.audio, timelineActive := t.timelineActive) == t
  {
    t.(audio := Pause(t.audio).(currentTime := 0.0), timelineActive := false)
  }

  function Stopped(ts: seq<Track>): (r: seq<Track>)
    ensures |r| == |ts| && forall k :: 0 <= k < |ts| ==> r[k] == StopTrack(ts[k])
  {
    seq(|ts|, k requires 0 <= k < |ts| => StopTrack(ts[k]))
  }

  /** Whether a track sounds at `elapsed` seconds into the timeline; a `null` end is 0. */
  predicate SoundsAt(t: Track, elapsed: real)
  {
    ShouldPlay(elapsed, t.startTime, NumberOf(t.endTime))
  }

  /** One track in one frame of `updateTimeline`: it is started from 0 when it should sound
      and is not active, stopped and rewound when it is active and should not sound, and
      left alone otherwise. */
  function StepTrack(t: Track, elapsed: real): Track
  {
    var shouldPlay := SoundsAt(t, elapsed);
    if shouldPlay && !t.timelineActive then
      t.(timelineActive := true, audio := t.audio.(currentTime := 0.0, playing := true))
    else if !shouldPlay && t.timelineActive then
      t.(timelineActive := false, audio := Pause(t.audio).(currentTime := 0.0))
    else t
  }

  function Stepped(ts: seq<Track>, elapsed: real): (r: seq<Track>)
    ensures |r| == |ts| && forall k :: 0 <= k < |ts| ==> r[k] == StepTrack(ts[k], elapsed)
  {
    seq(|ts|, k requires 0 <= k < |ts| => StepTrack(ts[k], elapsed))
  }

  /** After a frame a track is active exactly when it sounds at that time; a track whose
      state already agreed is untouched, and one that toggles is rewound to 0 and plays
      exactly when it became active. Nothing but the audio and the flag changes. */
  lemma StepTrackSpec(t: Track, elapsed: real)
    ensures var r := StepTrack(t, elapsed);
            && r.timelineActive == SoundsAt(t, elapsed)
            && (t.timelineActive == SoundsAt(t, elapsed) ==> r == t)
            && (t.timelineActive != SoundsAt(t, elapsed) ==>
                  r.audio.currentTime == 0.0 && r.audio.playing == SoundsAt(t, elapsed))
            && r.(audio := t.audio, timelineActive := t.timelineActive) == t
            && r.audio.loop == t.audio.loop && r.audio.volume == t.audio.volume
  {
  }

  /** What the editor's timeline consists of. */
  datatype Playback = Playback(timeline: GlobalTimeline, tracks: seq<Track>)

  /** `stopTimeline`. */
  function StoppedPlayback(p: Playback): Playback
  {
    Playback(StoppedClock(p.timeline), Stopped(p.tracks))
  }

  /** One frame of `updateTimeline` at `now`: nothing when the timeline is not playing;
      at or past the end it stops, or with loop on restarts the clock at `now` and resets
      every track before the tracks are stepped with the elapsed time measured before the
      restart; otherwise the tracks are stepped with the elapsed time. A playing timeline
      requests the next frame. */
  function Frame(p: Playback, now: real): Playback
  {
    var g := p.timeline;
    if !g.isPlaying then p
    else
      var elapsed := TimelineElapsed(g, now);
      if elapsed >= g.duration && !g.loop then StoppedPlayback(Playback(g.(currentTime := elapsed), p.tracks))
      else if elapsed >= g.duration then
        Playback(g.(startTime := now, currentTime := 0.0, framePending := true), Stepped(Stopped(p.tracks), elapsed))
      else
        Playback(g.(currentTime := elapsed, framePending := true), Stepped(p.tracks, elapsed))
  }

  /** `playTimeline` at `now`: stops a playing timeline, otherwise starts the clock at `now`
      from 0 and runs the first frame. */
  function Played(p: Playback, now: real): Playback
  {
    if p.timeline.isPlaying then StoppedPlayback(p)
    else Frame(Playback(p.timeline.(isPlaying := true, startTime := now, currentTime := 0.0), p.tracks), now)
  }

  /** After `stopTimeline` the clock is stopped at 0 with no frame pending, and every track
      is inactive, paused and rewound. */
  lemma StopSpec(p: Playback)
    ensures var r := StoppedPlayback(p);
            && !r.timeline.isPlaying && r.timeline.currentTime == 0.0 && !r.timeline.framePending
            && r.timeline.duration == p.timeline.duration && r.timeline.loop == p.timeline.loop
            && |r.tracks| == |p.tracks|
            && forall k :: 0 <= k < |r.tracks| ==>
                 !r.tracks[k].timelineActive && !r.tracks[k].audio.playing && r.tracks[k].audio.currentTime == 0.0
  {
  }

  /** A frame changes nothing of a tracks but its audio and its active flag, and keeps the
      timeline's length. */
  lemma FrameKeepsTracks(p: Playback, now: real)
    ensures var r := Frame(p, now);
            && |r.tracks| == |p.tracks| && r.timeline.duration == p.timeline.duration
            && r.timeline.loop == p.timeline.loop
            && (forall k :: 0 <= k < |p.tracks| ==>
                  r.tracks[k].(audio := p.tracks[k].audio, timelineActive := p.tracks[k].timelineActive) == p.tracks[k])
            && Mapped(r.tracks, EndOf) == Mapped(p.tracks, EndOf)
  {
    var r := Frame(p, now);
    forall k | 0 <= k < |p.tracks|
      ensures r.tracks[k].(audio := p.tracks[k].audio, timelineActive := p.tracks[k].timelineActive) == p.tracks[k]
    {
      StepTrackSpec(p.tracks[k], TimelineElapsed(p.timeline, now));
      StepTrackSpec(StopTrack(p.tracks[k]), TimelineElapsed(p.timeline, now));
    }
    assert forall k :: 0 <= k < |p.tracks| ==> EndOf(r.tracks[k]) == EndOf(p.tracks[k]);
  }

  /** A frame of a playing timeline before its end sets the current time to the elapsed
      time and leaves each track active exactly when it should sound. */
  lemma FrameBeforeEnd(p: Playback, now: real)
    requires p.timeline.isPlaying && TimelineElapsed(p.timeline, now) < p.timeline.duration
    ensures var r := Frame(p, now);
            var elapsed := TimelineElapsed(p.timeline, now);
            && r.timeline.isPlaying && r.timeline.framePending
            && r.timeline.currentTime == elapsed && r.timeline.startTime == p.timeline.startTime
            && forall k :: 0 <= k < |r.tracks| ==> r.tracks[k].timelineActive == SoundsAt(p.tracks[k], elapsed)
  {
    var elapsed := TimelineElapsed(p.timeline, now);
    forall k | 0 <= k < |p.tracks| ensures Frame(p, now).tracks[k].timelineActive == SoundsAt(p.tracks[k], elapsed) {
      StepTrackSpec(p.tracks[k], elapsed);
    }
  }

  /** At or past the end without loop the timeline stops and every track falls silent. */
  lemma FrameStopsAtEnd(p: Playback, now: real)
    requires p.timeline.isPlaying && TimelineElapsed(p.timeline, now) >= p.timeline.duration
    requires !p.timeline.loop
    ensures Frame(p, now) == StoppedPlayback(p)
  {
  }

  /** At or past the end with loop on, the clock restarts at `now` from 0, and — since the
      length is the largest end — no track is active or playing afterwards. */
  lemma FrameRestartsAtEnd(p: Playback, now: real)
    requires p.timeline.isPlaying && TimelineElapsed(p.timeline, now) >= p.timeline.duration
    requires p.timeline.loop
    requires p.timeline.duration == TimelineLength(p.tracks)
    ensures var r := Frame(p, now);
            && r.timeline.isPlaying && r.timeline.framePending
            && r.timeline.startTime == now && r.timeline.currentTime == 0.0
            && |r.tracks| == |p.tracks|
            && forall k :: 0 <= k < |r.tracks| ==>
                 !r.tracks[k].timelineActive && !r.tracks[k].audio.playing && r.tracks[k].audio.currentTime == 0.0
  {
    var elapsed := TimelineElapsed(p.timeline, now);
    var ends := Mapped(p.tracks, EndOf);
    MaxEndSpec(ends);
    forall k | 0 <= k < |p.tracks| ensures !SoundsAt(StopTrack(p.tracks[k]), elapsed) {
      assert ends[k] == p.tracks[k].endTime;
    }
  }

  /** `playTimeline` stops a playing timeline; on a stopped one with a positive length it
      starts the clock at `now` and activates exactly the tracks that sound at time 0. */
  lemma PlayedSpec(p: Playback, now: real)
    ensures p.timeline.isPlaying ==> Played(p, now) == StoppedPlayback(p)
    ensures !p.timeline.isPlaying && p.timeline.duration > 0.0 ==>
              var r := Played(p, now);
              && r.timeline.isPlaying && r.timeline.startTime == now && r.timeline.currentTime == 0.0
              && r.timeline.framePending && |r.tracks| == |p.tracks|
              && forall k :: 0 <= k < |r.tracks| ==> r.tracks[k].timelineActive == SoundsAt(p.tracks[k], 0.0)
  {
    if !p.timeline.isPlaying && p.timeline.duration > 0.0 {
      var q := Playback(p.timeline.(isPlaying := true, startTime := now, currentTime := 0.0), p.tracks);
      assert TimelineElapsed(q.timeline, now) == 0.0;
      FrameBeforeEnd(q, now);
    }
  }

  // ---------------------------------------------------------------------------------------
  // Reordering

  /** Moving a track up and sorting keeps the timeline's length. */
  lemma MoveUpKeepsLength(ts: seq<Track>, id: string)
    ensures TimelineLength(MovedUp(ts, IdOf, PlayOrderOf, WithPlayOrder, id)) == TimelineLength(ts)
  {
    PlayOrderIsSet();
    MoveUpSpec(ts, IdOf, PlayOrderOf, WithPlayOrder, id);
    match UpPair(ts, IdOf, PlayOrderOf, id)
    case None =>
    case Some((i, j)) => RetaggedLength(ts, i, j, MovedUp(ts, IdOf, PlayOrderOf, WithPlayOrder, id));
  }

  /** Moving a track down and sorting keeps the timeline's length. */
  lemma MoveDownKeepsLength(ts: seq<Track>, id: string)
    ensures TimelineLength(MovedDown(ts, IdOf, PlayOrderOf, WithPlayOrder, id)) == TimelineLength(ts)
  {
    PlayOrderIsSet();
    MoveDownSpec(ts, IdOf, PlayOrderOf, WithPlayOrder, id);
    match DownPair(ts, IdOf, PlayOrderOf, id)
    case None =>
    case Some((i, j)) => RetaggedLength(ts, i, j, MovedDown(ts, IdOf, PlayOrderOf, WithPlayOrder, id));
  }

  lemma RetaggedLength(ts: seq<Track>, i: nat, j: nat, r: seq<Track>)
    requires Swapped(ts, i, j, r, PlayOrderOf, WithPlayOrder)
    ensures TimelineLength(r) == TimelineLength(ts)
  {
    var swapped := Exchanged(ts, i, j, PlayOrderOf, WithPlayOrder);
    PermutedLength(r, swapped);
    assert Mapped(swapped, EndOf) == Mapped(ts, EndOf);
  }

  // ---------------------------------------------------------------------------------------
  // The editor

  /** The state of js/audioControls.js: `audioTracks` and `globalTimeline`. */
  class AudioEditor {
    var audioTracks: seq<Track>
    var globalTimeline: GlobalTimeline

    /** The timeline's duration is kept equal to the largest end of its tracks. */
    predicate Valid()
      reads this
    {
      globalTimeline.duration == TimelineLength(audioTracks)
    }

    function State(): Playback
      reads this
    {
      Playback(globalTimeline, audioTracks)
    }

    constructor ()
      ensures Valid() && audioTracks == [] && globalTimeline == InitialTimeline
    {
      audioTracks := [];
      globalTimeline := InitialTimeline;
    }

    /** `updateTimelineDuration`: the duration becomes the largest truthy end. */
    method UpdateTimelineDuration()
      modifies this
      ensures Valid() && audioTracks == old(audioTracks)
      ensures globalTimeline == old(globalTimeline).(duration := TimelineLength(audioTracks))
    {
      ghost var ends := Mapped(audioTracks, EndOf);
      var maxEndTime := 0.0;
      var i := 0;
      while i < |audioTracks|
        invariant 0 <= i <= |audioTracks|
        invariant maxEndTime == MaxEnd(ends[..i])
      {
        var track := audioTracks[i];
        if track.endTime.Some? && Truthy(track.endTime.value) && track.endTime.value > maxEndTime {
          maxEndTime := track.endTime.value;
        }
        assert ends[..i + 1][..i] == ends[..i];
        i := i + 1;
      }
      assert ends[..|audioTracks|] == ends;
      globalTimeline := globalTimeline.(duration := maxEndTime);
    }

    /** `addAudioTracks(files)`: one new track per file, numbered on from the existing ones;
        the duration is recomputed and, since new tracks have no end, stays the same. */
    method AddAudioTracks(files: seq<AudioFile>)
      requires Valid()
      modifies this
      ensures Valid() && globalTimeline == old(globalTimeline)
      ensures audioTracks == old(audioTracks) + NewTracks(files, |old(audioTracks)|)
    {
      ghost var before := audioTracks;
      for k := 0 to |files|
        invariant audioTracks == before + NewTracks(files[..k], |before|)
        invariant globalTimeline == old(globalTimeline)
      {
        var file := files[k];
        var track := Track(file.id, file.name, NewAudio(file.mediaDuration), false, 0.0, None, None,
                           false, |audioTracks| + 1, false);
        audioTracks := audioTracks + [track];
        assert NewTracks(files[..k + 1], |before|) == NewTracks(files[..k], |before|) + [track];
        NewTracksSpec(before, files[..k + 1]);
        UpdateTimelineDuration();
      }
      assert files[..|files|] == files;
      NewTracksSpec(before, files);
      UpdateTimelineDuration();
    }

    /** The `loadedmetadata` event of the track at index `k`. */
    method MetadataLoaded(k: nat)
      requires Valid() && k < |audioTracks|
      modifies this
      ensures Valid() && audioTracks == old(audioTracks)[k := Loaded(old(audioTracks)[k])]
      ensures globalTimeline == old(globalTimeline).(duration := TimelineLength(audioTracks))
    {
      var track := audioTracks[k];
      track := track.(duration := Some(track.audio.duration));
      if track.endTime == None {
        track := track.(endTime := Some(track.startTime + track.duration.value));
      }
      audioTracks := audioTracks[k := track];
      UpdateTimelineDuration();
    }

    /** The `ended` listener of the track at index `k`; a looping element never ends. */
    method Ended(k: nat)
      requires Valid() && k < |audioTracks| && !audioTracks[k].audio.loop
      modifies this
      ensures Valid() && audioTracks == old(audioTracks)[k := EndedTrack(old(audioTracks)[k])]
      ensures globalTimeline == old(globalTimeline)
    {
      EndedKeepsLength(audioTracks, k);
      var track := audioTracks[k];
      track := track.(audio := track.audio.(playing := false));
      track := track.(isPlaying := false);
      track := track.(audio := track.audio.(currentTime := 0.0));
      audioTracks := audioTracks[k := track];
    }

    /** `updateTimelineSettings(trackId, type, value)`: an unknown id changes nothing;
        otherwise the first track with the id takes the setting and the duration is
        recomputed. */
    method UpdateTimelineSettings(trackId: string, kind: string, value: real)
      requires Valid()
      modifies this
      ensures Valid()
      ensures match FindFirst(old(audioTracks), KeyIs(IdOf, trackId))
              case None => audioTracks == old(audioTracks) && globalTimeline == old(globalTimeline)
              case Some(i) =>
                && audioTracks == old(audioTracks)[i := WithSetting(old(audioTracks)[i], kind, value)]
                && globalTimeline == old(globalTimeline).(duration := TimelineLength(audioTracks))
    {
      var found := FindFirst(audioTracks, KeyIs(IdOf, trackId));
      if found.None? {
        return;
      }
      var i := found.value;
      var track := audioTracks[i];
      if kind == "start" {
        track := track.(startTime := Max(0.0, value));
        if Present(track.duration) && NumberOf(track.endTime) <= track.startTime {
          track := track.(endTime := Some(track.startTime + track.duration.value));
        }
      } else if kind == "end" {
        track := track.(endTime := Some(Max(track.startTime + 0.1, value)));
      }
      assert track == WithSetting(audioTracks[i], kind, value);
      audioTracks := audioTracks[i := track];
      UpdateTimelineDuration();
    }

    /** The `loop` checkbox of the timeline display. */
    method SetLoop(checked: bool)
      requires Valid()
      modifies this
      ensures Valid() && audioTracks == old(audioTracks)
      ensures globalTimeline == old(globalTimeline).(loop := checked)
    {
      globalTimeline := globalTimeline.(loop := checked);
    }

    /** The forEach that pauses, rewinds and deactivates every track. */
    method ResetTracks()
      modifies this
      ensures globalTimeline == old(globalTimeline) && audioTracks == Stopped(old(audioTracks))
    {
      ghost var before := audioTracks;
      var i := 0;
      while i < |audioTracks|
        invariant 0 <= i <= |audioTracks| == |before|
        invariant globalTimeline == old(globalTimeline)
        invariant forall k :: 0 <= k < i ==> audioTracks[k] == StopTrack(before[k])
        invariant forall k :: i <= k < |before| ==> audioTracks[k] == before[k]
      {
        var track := audioTracks[i];
        track := track.(audio := Pause(track.audio));
        track := track.(audio := track.audio.(currentTime := 0.0));
        track := track.(timelineActive := false);
        audioTracks := audioTracks[i := track];
        i := i + 1;
      }
    }

    /** `stopTimeline`. */
    method StopTimeline()
      requires Valid()
      modifies this
      ensures Valid() && State() == StoppedPlayback(old(State()))
    {
      globalTimeline := globalTimeline.(isPlaying := false, currentTime := 0.0);
      if globalTimeline.framePending {
        globalTimeline := globalTimeline.(framePending := false);
      }
      ResetTracks();
      assert Mapped(audioTracks, EndOf) == Mapped(old(audioTracks), EndOf) by {
        assert forall k :: 0 <= k < |audioTracks| ==> EndOf(audioTracks[k]) == EndOf(old(audioTracks)[k]);
      }
    }

    /** The forEach of `updateTimeline` that starts and stops tracks at `elapsed`. */
    method StepTracks(elapsed: real)
      modifies this
      ensures globalTimeline == old(globalTimeline) && audioTracks == Stepped(old(audioTracks), elapsed)
    {
      ghost var before := audioTracks;
      var i := 0;
      while i < |audioTracks|
        invariant 0 <= i <= |audioTracks| == |before|
        invariant globalTimeline == old(globalTimeline)
        invariant forall k :: 0 <= k < i ==> audioTracks[k] == StepTrack(before[k], elapsed)
        invariant forall k :: i <= k < |before| ==> audioTracks[k] == before[k]
      {
        var track := audioTracks[i];
        var shouldPlay := elapsed >= track.startTime && elapsed < NumberOf(track.endTime);
        if shouldPlay && !track.timelineActive {
          track := track.(timelineActive := true);
          track := track.(audio := track.audio.(currentTime := 0.0));
          track := track.(audio := track.audio.(playing := true));
        } else if !shouldPlay && track.timelineActive {
          track := track.(timelineActive := false);
          track := track.(audio := Pause(track.audio));
          track := track.(audio := track.audio.(currentTime := 0.0));
        }
        audioTracks := audioTracks[i := track];
        i := i + 1;
      }
    }

    /** `updateTimeline`, one animation frame at `now`. */
    method UpdateTimeline(now: real)
      requires Valid()
      modifies this
      ensures Valid() && State() == Frame(old(State()), now)
    {
      ghost var p := State();
      FrameKeepsTracks(p, now);
      if !globalTimeline.isPlaying {
        return;
      }
      var elapsed := (now - globalTimeline.startTime) / 1000.0;
      assert elapsed == TimelineElapsed(p.timeline, now);
      globalTimeline := globalTimeline.(currentTime := elapsed);
      if elapsed >= globalTimeline.duration {
        if globalTimeline.loop {
          globalTimeline := globalTimeline.(startTime := now, currentTime := 0.0);
          ResetTracks();
        } else {
          StopTimeline();
          return;
        }
      }
      StepTracks(elapsed);
      globalTimeline := globalTimeline.(framePending := true);
    }

    /** `playTimeline`, the play/stop button of the timeline, at `now`. */
    method PlayTimeline(now: real)
      requires Valid()
      modifies this
      ensures Valid() && State() == Played(old(State()), now)
    {
      if globalTimeline.isPlaying {
        StopTimeline();
        return;
      }
      globalTimeline := globalTimeline.(isPlaying := true, startTime := now, currentTime := 0.0);
      UpdateTimeline(now);
    }

    /** The `sort` of `reorderAudioDisplay`. */
    method ReorderTracks()
      modifies this
      ensures globalTimeline == old(globalTimeline)
      ensures audioTracks == SortByOrder(old(audioTracks), PlayOrderOf)
    {
      audioTracks := SortByOrder(audioTracks, PlayOrderOf);
    }

    /** `reorderAudioDisplay`: the array is sorted in place by ascending play order. */
    method ReorderAudioDisplay()
      requires Valid()
      modifies this
      ensures Valid() && globalTimeline == old(globalTimeline)
      ensures audioTracks == SortByOrder(old(audioTracks), PlayOrderOf)
    {
      SortByOrderSpec(audioTracks, PlayOrderOf);
      PermutedLength(SortByOrder(audioTracks, PlayOrderOf), audioTracks);
      audioTracks := SortByOrder(audioTracks, PlayOrderOf);
    }

    /** `moveTrackUp(trackId)`: the two `find` calls are `UpPair`; the neighbour's order goes
        up by one, the track's down by one, and the array is sorted again. */
    method MoveTrackUp(trackId: string)
      requires Valid()
      modifies this
      ensures Valid() && globalTimeline == old(globalTimeline)
      ensures audioTracks == MovedUp(old(audioTracks), IdOf, PlayOrderOf, WithPlayOrder, trackId)
    {
      ghost var s := audioTracks;
      MoveUpKeepsLength(audioTracks, trackId);
      var pair := UpPair(audioTracks, IdOf, PlayOrderOf, trackId);
      if pair.Some? {
        var (i, j) := pair.value;
        var trackOrder, neighbourOrder := PlayOrderOf(audioTracks[i]) - 1, PlayOrderOf(audioTracks[j]) + 1;
        MovedUpIs(s, IdOf, PlayOrderOf, WithPlayOrder, trackId, i, j, trackOrder, neighbourOrder);
        audioTracks := Retagged(audioTracks, i, j, trackOrder, neighbourOrder, WithPlayOrder);
        ReorderTracks();
      }
    }

    /** `moveTrackDown(trackId)`: the `find` calls and the `Math.max` test are `DownPair`;
        the neighbour's order goes down by one, the track's up by one, and the array is
        sorted again. */
    method MoveTrackDown(trackId: string)
      requires Valid()
      modifies this
      ensures Valid() && globalTimeline == old(globalTimeline)
      ensures audioTracks == MovedDown(old(audioTracks), IdOf, PlayOrderOf, WithPlayOrder, trackId)
    {
      ghost var s := audioTracks;
      MoveDownKeepsLength(audioTracks, trackId);
      var pair := DownPair(audioTracks, IdOf, PlayOrderOf, trackId);
      if pair.Some? {
        var (i, j) := pair.value;
        var trackOrder, neighbourOrder := PlayOrderOf(audioTracks[i]) + 1, PlayOrderOf(audioTracks[j]) - 1;
        MovedDownIs(s, IdOf, PlayOrderOf, WithPlayOrder, trackId, i, j, trackOrder, neighbourOrder);
        audioTracks := Retagged(audioTracks, i, j, trackOrder, neighbourOrder, WithPlayOrder);
        ReorderTracks();
      }
    }

    /** `deleteAudioTrack(trackId)`: removes the first track with the id and recomputes the
        duration; an unknown id changes nothing. */
    method DeleteAudioTrack(trackId: string)
      requires Valid()
      modifies this
      ensures Valid()
      ensures match FindFirst(old(audioTracks), KeyIs(IdOf, trackId))
              case None => audioTracks == old(audioTracks) && globalTimeline == old(globalTimeline)
              case Some(i) =>
                && audioTracks == RemoveAt(old(audioTracks), i)
                && globalTimeline == old(globalTimeline).(duration := TimelineLength(audioTracks))
    {
      var trackIndex := FindFirst(audioTracks, KeyIs(IdOf, trackId));
      if trackIndex.Some? {
        audioTracks := RemoveAt(audioTracks, trackIndex.value);
        UpdateTimelineDuration();
      }
    }
  }
}
