/** The audio timeline embedded in the page `generateHtmlControls` exports: the track
    records written into `initializeAudioTracks` from the editor's tracks, the duration it
    computes, and its `playTimeline`, `stopTimeline`, `toggleTimelineLoop` and
    `updateTimeline`, together with the marker handlers that start and stop it. Unlike the
    editor, a track's end is always a number here, and a track whose `<audio>` element is
    missing is skipped by each frame. */
module ExportTimeline {
  import opened JsMath
  import opened Common
  import opened Timeline
  import AudioControls
  import ControlsExport
  import ExportedPlanes
  import TrackLists

  /** A record of the page's `audioTracks`; `audio` is the result of `getElementById`. */
  datatype ExportTrack = ExportTrack(
    id: string,
    name: string,
    audio: Option<AudioElement>,
    playOrder: int,
    startTime: real,
    endTime: real,
    duration: real,
    timelineActive: bool,
    volume: real,
    isPlaying: bool)

  // ---------------------------------------------------------------------------------------
  // The records written into the page

  /** `track.duration || 0` */
  function ExportedDuration(t: AudioControls.Track): real
  {
    if Present(t.duration) then t.duration.value else 0.0
  }

  /** `track.endTime || track.startTime + (track.duration || 0)` */
  function ExportedEnd(t: AudioControls.Track): real
  {
    if Present(t.endTime) then t.endTime.value else t.startTime + ExportedDuration(t)
  }

  /** The `<audio id="audio-…">` elements of the page, by track id. */
  function ElementById(elements: map<string, AudioElement>, id: string): Option<AudioElement>
  {
    if id in elements then Some(elements[id]) else None
  }

  /** The object literal the export writes for editor track `t`. */
  function ExportedRecord(t: AudioControls.Track, elements: map<string, AudioElement>): ExportTrack
  {
    ExportTrack(t.id, t.name, ElementById(elements, t.id), t.playOrder, t.startTime,
                ExportedEnd(t), ExportedDuration(t), false, t.audio.volume, false)
  }

  /** The pushes of `initializeAudioTracks`, one per editor track in array order. */
  function ExportedRecords(ts: seq<AudioControls.Track>, elements: map<string, AudioElement>): (r: seq<ExportTrack>)
    ensures |r| == |ts| && forall k :: 0 <= k < |ts| ==> r[k] == ExportedRecord(ts[k], elements)
  {
    seq(|ts|, k requires 0 <= k < |ts| => ExportedRecord(ts[k], elements))
  }

  /** A record keeps the editor track's id, order, start and volume, and starts inactive; its
      end is the editor's end when that is truthy and otherwise the start plus the known
      duration, so it never lies before the start when that duration is not negative. */
  lemma ExportedRecordSpec(t: AudioControls.Track, elements: map<string, AudioElement>)
    ensures var r := ExportedRecord(t, elements);
            && r.id == t.id && r.playOrder == t.playOrder && r.startTime == t.startTime
            && r.volume == t.audio.volume && !r.timelineActive && !r.isPlaying
            && (r.audio.Some? <==> t.id in elements)
            && (Present(t.endTime) ==> r.endTime == t.endTime.value)
            && (!Present(t.endTime) ==> r.endTime == r.startTime + r.duration)
            && (!Present(t.endTime) && r.duration >= 0.0 ==> r.endTime >= r.startTime)
            && (Present(t.duration) ==> r.duration == t.duration.value)
            && (!Present(t.duration) ==> r.duration == 0.0)
  {
  }

  // ---------------------------------------------------------------------------------------
  // The timeline's length

  /** The `maxEndTime` loop of `initializeAudioTracks`: the largest end, or 0. No truthiness
      test is needed, since every end is a number. */
  function LargestEnd(ts: seq<ExportTrack>): real
  {
    if |ts| == 0 then 0.0
    else
      var m := LargestEnd(ts[..|ts| - 1]);
      var e := ts[|ts| - 1].endTime;
      if e > m then e else m
  }

  /** The length is at least 0, at least every end, and is either 0 or one of the ends. */
  lemma {:induction false} LargestEndSpec(ts: seq<ExportTrack>)
    ensures LargestEnd(ts) >= 0.0
    ensures forall k :: 0 <= k < |ts| ==> ts[k].endTime <= LargestEnd(ts)
    ensures LargestEnd(ts) == 0.0 || exists k :: 0 <= k < |ts| && ts[k].endTime == LargestEnd(ts)
  {
    if |ts| > 0 {
      var n := |ts| - 1;
      var front := ts[..n];
      LargestEndSpec(front);
      assert forall k :: 0 <= k < n ==> front[k] == ts[k];
      if LargestEnd(front) != 0.0 {
        var k :| 0 <= k < n && front[k].endTime == LargestEnd(front);
        assert ts[k] == front[k];
      }
    }
  }

  /** The exported timeline is never shorter than the editor's; when every editor track has
      a truthy end the two lengths are equal. */
  lemma ExportedLength(ts: seq<AudioControls.Track>, elements: map<string, AudioElement>)
    ensures LargestEnd(ExportedRecords(ts, elements)) >= AudioControls.TimelineLength(ts)
    ensures (forall k :: 0 <= k < |ts| ==> Present(ts[k].endTime)) ==>
              LargestEnd(ExportedRecords(ts, elements)) == AudioControls.TimelineLength(ts)
  {
    var rs := ExportedRecords(ts, elements);
    var ends := TrackLists.Mapped(ts, AudioControls.EndOf);
    LargestEndSpec(rs);
    AudioControls.MaxEndSpec(ends);
    if AudioControls.MaxEnd(ends) != 0.0 {
      var k :| 0 <= k < |ends| && Present(ends[k]) && ends[k].value == AudioControls.MaxEnd(ends);
      assert rs[k].endTime == ends[k].value;
    }
    if (forall k :: 0 <= k < |ts| ==> Present(ts[k].endTime)) && LargestEnd(rs) != 0.0 {
      var k :| 0 <= k < |rs| && rs[k].endTime == LargestEnd(rs);
      assert ends[k] == ts[k].endTime;
    }
  }

  /** The element settings of `initializeAudioTracks`: the record's volume, no looping. */
  function Prepared(t: ExportTrack): (r: ExportTrack)
    ensures r.audio.Some? == t.audio.Some?
    ensures r.audio.Some? ==> r.audio.value.volume == t.volume && !r.audio.value.loop
    ensures r.audio.Some? ==> r.audio.value.(volume := t.audio.value.volume, loop := t.audio.value.loop) == t.audio.value
    ensures r.(audio := t.audio) == t
  {
    if t.audio.Some? then t.(audio := Some(t.audio.value.(volume := t.volume, loop := false))) else t
  }

  function PreparedAll(ts: seq<ExportTrack>): (r: seq<ExportTrack>)
    ensures |r| == |ts| && forall k :: 0 <= k < |ts| ==> r[k] == Prepared(ts[k])
  {
    seq(|ts|, k requires 0 <= k < |ts| => Prepared(ts[k]))
  }

  lemma PreparedLength(ts: seq<ExportTrack>)
    ensures LargestEnd(PreparedAll(ts)) == LargestEnd(ts)
  {
    SameEndsLength(ts, PreparedAll(ts));
  }

  // ---------------------------------------------------------------------------------------
  // Playing the timeline

  /** The forEach of `stopTimeline` and of the loop restart: a track with an element is
      paused and rewound, and every track becomes inactive. */
  function StopTrack(t: ExportTrack): (r: ExportTrack)
    ensures !r.timelineActive && r.audio.Some? == t.audio.Some?
    ensures r.audio.Some? ==> !r.audio.value.playing && r.audio.value.currentTime == 0.0
    ensures r.(audio := t.audio, timelineActive := t.timelineActive) == t
  {
    var a := if t.audio.Some? then Some(Pause(t.audio.value).(currentTime := 0.0)) else t.audio;
    t.(audio := a, timelineActive := false)
  }

  function Stopped(ts: seq<ExportTrack>): (r: seq<ExportTrack>)
    ensures |r| == |ts| && forall k :: 0 <= k < |ts| ==> r[k] == StopTrack(ts[k])
  {
    seq(|ts|, k requires 0 <= k < |ts| => StopTrack(ts[k]))
  }

  /** One track in one frame of `updateTimeline`: a track without an element is skipped;
      otherwise it is started from 0 when it should sound and is not active, stopped and
      rewound when it is active and should not sound, and left alone otherwise. */
  function StepTrack(t: ExportTrack, elapsed: real): ExportTrack
  {
    if t.audio.None? then t
    else
      var shouldPlay := ShouldPlay(elapsed, t.startTime, t.endTime);
      if shouldPlay && !t.timelineActive then
        t.(timelineActive := true, audio := Some(t.audio.value.(currentTime := 0.0, playing := true)))
      else if !shouldPlay && t.timelineActive then
        t.(timelineActive := false, audio := Some(Pause(t.audio.value).(currentTime := 0.0)))
      else t
  }

  function Stepped(ts: seq<ExportTrack>, elapsed: real): (r: seq<ExportTrack>)
    ensures |r| == |ts| && forall k :: 0 <= k < |ts| ==> r[k] == StepTrack(ts[k], elapsed)
  {
    seq(|ts|, k requires 0 <= k < |ts| => StepTrack(ts[k], elapsed))
  }

  /** After a frame a track with an element is active exactly when `startTime ≤ elapsed <
      endTime`; one that toggles is rewound and plays exactly when it became active, one
      that already agreed is untouched, and a track without an element is untouched. */
  lemma StepTrackSpec(t: ExportTrack, elapsed: real)
    ensures var r := StepTrack(t, elapsed);
            var on := ShouldPlay(elapsed, t.startTime, t.endTime);
            && (t.audio.None? ==> r == t)
            && (t.audio.Some? ==> r.timelineActive == on && r.audio.Some?)
            && (t.audio.Some? && t.timelineActive == on ==> r == t)
            && (t.audio.Some? && t.timelineActive != on ==>
                  r.audio.value.currentTime == 0.0 && r.audio.value.playing == on)
            && r.(audio := t.audio, timelineActive := t.timelineActive) == t
  {
  }

  /** What the page's timeline consists of. */
  datatype Playback = Playback(timeline: GlobalTimeline, tracks: seq<ExportTrack>)

  /** `stopTimeline`. */
  function StoppedPlayback(p: Playback): Playback
  {
    Playback(StoppedClock(p.timeline), Stopped(p.tracks))
  }

  /** One frame of the page's `updateTimeline` at `now`, in the same shape as the editor's:
      nothing when not playing; at or past the end it stops, or with loop on restarts the
      clock at `now` and resets every track before stepping them with the elapsed time
      measured before the restart; otherwise the tracks are stepped. */
  function Frame(p: Playback, now: real): Playback
  {
    var g := p.timeline;
    if !g.isPlaying then p
    else
      var elapsed := TimelineElapsed(g, now);
      if elapsed >= g.duration && !g.loop then StoppedPlayback(Playback(g.(currentTime := elapsed), p.tracks))
      else if elapsed >= g.duration then
        Playback(g.(startTime := now, currentTime := 0.0, framePending := true), Stepped(Stopped(p.tracks), elapsed))
      else
        Playback(g.(currentTime := elapsed, framePending := true), Stepped(p.tracks, elapsed))
  }

  /** `playTimeline` at `now`: stops a playing timeline, otherwise starts it from 0. */
  function Played(p: Playback, now: real): Playback
  {
    if p.timeline.isPlaying then StoppedPlayback(p)
    else Frame(Playback(p.timeline.(isPlaying := true, startTime := now, currentTime := 0.0), p.tracks), now)
  }

  /** After `stopTimeline` the clock is stopped at 0 with no frame pending, every track is
      inactive and every element is paused and rewound. */
  lemma StopSpec(p: Playback)
    ensures var r := StoppedPlayback(p);
            && !r.timeline.isPlaying && r.timeline.currentTime == 0.0 && !r.timeline.framePending
            && r.timeline.duration == p.timeline.duration && r.timeline.loop == p.timeline.loop
            && |r.tracks| == |p.tracks|
            && forall k :: 0 <= k < |r.tracks| ==>
                 && !r.tracks[k].timelineActive
                 && (r.tracks[k].audio.Some? ==> !r.tracks[k].audio.value.playing && r.tracks[k].audio.value.currentTime == 0.0)
  {
  }

  /** A frame keeps every track's timing, the number of tracks and the clock's length. */
  lemma FrameKeepsTracks(p: Playback, now: real)
    ensures var r := Frame(p, now);
            && |r.tracks| == |p.tracks| && r.timeline.duration == p.timeline.duration
            && r.timeline.loop == p.timeline.loop
            && (forall k :: 0 <= k < |p.tracks| ==>
                  r.tracks[k].(audio := p.tracks[k].audio, timelineActive := p.tracks[k].timelineActive) == p.tracks[k])
  {
    var r := Frame(p, now);
    forall k | 0 <= k < |p.tracks|
      ensures r.tracks[k].(audio := p.tracks[k].audio, timelineActive := p.tracks[k].timelineActive) == p.tracks[k]
    {
      StepTrackSpec(p.tracks[k], TimelineElapsed(p.timeline, now));
      StepTrackSpec(StopTrack(p.tracks[k]), TimelineElapsed(p.timeline, now));
    }
  }

  /** Before the end a frame sets the current time to the elapsed time; each track with an
      element is then active exactly when it should sound, and each without stays as
      it was. */
  lemma FrameBeforeEnd(p: Playback, now: real)
    requires p.timeline.isPlaying && TimelineElapsed(p.timeline, now) < p.timeline.duration
    ensures var r := Frame(p, now);
            var elapsed := TimelineElapsed(p.timeline, now);
            && r.timeline.isPlaying && r.timeline.framePending
            && r.timeline.currentTime == elapsed && r.timeline.startTime == p.timeline.startTime
            && forall k :: 0 <= k < |r.tracks| ==>
                 && (p.tracks[k].audio.Some? ==>
                       r.tracks[k].timelineActive == ShouldPlay(elapsed, p.tracks[k].startTime, p.tracks[k].endTime))
                 && (p.tracks[k].audio.None? ==> r.tracks[k] == p.tracks[k])
  {
    var elapsed := TimelineElapsed(p.timeline, now);
    forall k | 0 <= k < |p.tracks|
      ensures StepTrack(p.tracks[k], elapsed).timelineActive == ShouldPlay(elapsed, p.tracks[k].startTime, p.tracks[k].endTime)
              || p.tracks[k].audio.None?
    {
      StepTrackSpec(p.tracks[k], elapsed);
    }
  }

  /** At or past the end without loop the page's timeline stops. */
  lemma FrameStopsAtEnd(p: Playback, now: real)
    requires p.timeline.isPlaying && TimelineElapsed(p.timeline, now) >= p.timeline.duration
    requires !p.timeline.loop
    ensures Frame(p, now) == StoppedPlayback(p)
  {
  }

  /** At or past the end with loop on, the clock restarts at `now` from 0 and — since the
      length is the largest end — every track is inactive afterwards and every element is
      paused and rewound. */
  lemma FrameRestartsAtEnd(p: Playback, now: real)
    requires p.timeline.isPlaying && TimelineElapsed(p.timeline, now) >= p.timeline.duration
    requires p.timeline.loop
    requires p.timeline.duration == LargestEnd(p.tracks)
    ensures var r := Frame(p, now);
            && r.timeline.isPlaying && r.timeline.framePending
            && r.timeline.startTime == now && r.timeline.currentTime == 0.0
            && |r.tracks| == |p.tracks|
            && forall k :: 0 <= k < |r.tracks| ==>
                 && !r.tracks[k].timelineActive
                 && (r.tracks[k].audio.Some? ==> !r.tracks[k].audio.value.playing && r.tracks[k].audio.value.currentTime == 0.0)
  {
    LargestEndSpec(p.tracks);
  }

  /** `playTimeline` stops a playing timeline; on a stopped one with a positive length it
      starts the clock at `now` and activates exactly the tracks with an element that sound
      at time 0. */
  lemma PlayedSpec(p: Playback, now: real)
    ensures p.timeline.isPlaying ==> Played(p, now) == StoppedPlayback(p)
    ensures !p.timeline.isPlaying && p.timeline.duration > 0.0 ==>
              var r := Played(p, now);
              && r.timeline.isPlaying && r.timeline.startTime == now && r.timeline.currentTime == 0.0
              && r.timeline.framePending && |r.tracks| == |p.tracks|
              && forall k :: 0 <= k < |r.tracks| && p.tracks[k].audio.Some? ==>
                   r.tracks[k].timelineActive == ShouldPlay(0.0, p.tracks[k].startTime, p.tracks[k].endTime)
  {
    if !p.timeline.isPlaying && p.timeline.duration > 0.0 {
      var q := Playback(p.timeline.(isPlaying := true, startTime := now, currentTime := 0.0), p.tracks);
      assert TimelineElapsed(q.timeline, now) == 0.0;
      FrameBeforeEnd(q, now);
    }
  }

  // ---------------------------------------------------------------------------------------
  // The page

  /** The timeline part of the page script: `audioTracks` and `globalTimeline`. */
  class ExportedTimeline {
    var audioTracks: seq<ExportTrack>
    var globalTimeline: GlobalTimeline

    /** Once initialised, the duration is the largest end. */
    predicate Valid()
      reads this
    {
      globalTimeline.duration == LargestEnd(audioTracks)
    }

    function State(): Playback
      reads this
    {
      Playback(globalTimeline, audioTracks)
    }

    /** The script's declarations, before the page has loaded. */
    constructor ()
      ensures audioTracks == [] && globalTimeline == InitialTimeline
    {
      audioTracks := [];
      globalTimeline := InitialTimeline;
    }

    /** `initializeAudioTracks`, the page's `load` handler: the generated pushes of
        `records`, then each element takes its record's volume and stops looping, and the
        duration becomes the largest end. */
    method InitializeAudioTracks(records: seq<ExportTrack>)
      modifies this
      ensures Valid()
      ensures audioTracks == PreparedAll(records)
      ensures globalTimeline == old(globalTimeline).(duration := LargestEnd(records))
    {
      audioTracks := [];
      for k := 0 to |records|
        invariant audioTracks == records[..k]
        invariant globalTimeline == old(globalTimeline)
      {
        audioTracks := audioTracks + [records[k]];
      }
      assert records[..|records|] == records;
      var maxEndTime := PrepareTracks();
      globalTimeline := globalTimeline.(duration := maxEndTime);
      PreparedLength(records);
    }

    /** The forEach of `initializeAudioTracks`: sets each element's volume and loop, and
        returns the largest end. */
    method PrepareTracks() returns (maxEndTime: real)
      modifies this
      ensures globalTimeline == old(globalTimeline) && audioTracks == PreparedAll(old(audioTracks))
      ensures maxEndTime == LargestEnd(old(audioTracks))
    {
      ghost var before := audioTracks;
      maxEndTime := 0.0;
      var i := 0;
      while i < |audioTracks|
        invariant 0 <= i <= |audioTracks| == |before|
        invariant globalTimeline == old(globalTimeline)
        invariant forall k :: 0 <= k < i ==> audioTracks[k] == Prepared(before[k])
        invariant forall k :: i <= k < |before| ==> audioTracks[k] == before[k]
        invariant maxEndTime == LargestEnd(before[..i])
      {
        var track := audioTracks[i];
        if track.audio.Some? {
          track := track.(audio := Some(track.audio.value.(volume := track.volume)));
          track := track.(audio := Some(track.audio.value.(loop := false)));
        }
        if track.endTime > maxEndTime {
          maxEndTime := track.endTime;
        }
        audioTracks := audioTracks[i := track];
        assert before[..i + 1][..i] == before[..i];
        i := i + 1;
      }
      assert before[..|before|] == before;
    }

    /** The forEach that stops every track. */
    method ResetTracks()
      modifies this
      ensures globalTimeline == old(globalTimeline) && audioTracks == Stopped(old(audioTracks))
    {
      ghost var before := audioTracks;
      var i := 0;
      while i < |audioTracks|
        invariant 0 <= i <= |audioTracks| == |before|
        invariant globalTimeline == old(globalTimeline)
        invariant forall k :: 0 <= k < i ==> audioTracks[k] == StopTrack(before[k])
        invariant forall k :: i <= k < |before| ==> audioTracks[k] == before[k]
      {
        var track := audioTracks[i];
        if track.audio.Some? {
          track := track.(audio := Some(Pause(track.audio.value)));
          track := track.(audio := Some(track.audio.value.(currentTime := 0.0)));
        }
        track := track.(timelineActive := false);
        audioTracks := audioTracks[i := track];
        i := i + 1;
      }
    }

    /** The page's `stopTimeline`. */
    method StopTimeline()
      requires Valid()
      modifies this
      ensures Valid() && State() == StoppedPlayback(old(State()))
    {
      globalTimeline := globalTimeline.(isPlaying := false, currentTime := 0.0);
      if globalTimeline.framePending {
        globalTimeline := globalTimeline.(framePending := false);
      }
      ResetTracks();
      StoppedLength(old(audioTracks));
    }

    /** `toggleTimelineLoop`. */
    method ToggleTimelineLoop()
      requires Valid()
      modifies this
      ensures Valid() && audioTracks == old(audioTracks)
      ensures globalTimeline == old(globalTimeline).(loop := !old(globalTimeline).loop)
    {
      globalTimeline := globalTimeline.(loop := !globalTimeline.loop);
    }

    /** The forEach of `updateTimeline` that starts and stops tracks at `elapsed`. */
    method StepTracks(elapsed: real)
      modifies this
      ensures globalTimeline == old(globalTimeline) && audioTracks == Stepped(old(audioTracks), elapsed)
    {
      ghost var before := audioTracks;
      var i := 0;
      while i < |audioTracks|
        invariant 0 <= i <= |audioTracks| == |before|
        invariant globalTimeline == old(globalTimeline)
        invariant forall k :: 0 <= k < i ==> audioTracks[k] == StepTrack(before[k], elapsed)
        invariant forall k :: i <= k < |before| ==> audioTracks[k] == before[k]
      {
        var track := audioTracks[i];
        if track.audio.Some? {
          var shouldPlay := elapsed >= track.startTime && elapsed < track.endTime;
          if shouldPlay && !track.timelineActive {
            track := track.(timelineActive := true);
            track := track.(audio := Some(track.audio.value.(currentTime := 0.0)));
            track := track.(audio := Some(track.audio.value.(playing := true)));
          } else if !shouldPlay && track.timelineActive {
            track := track.(timelineActive := false);
            track := track.(audio := Some(Pause(track.audio.value)));
            track := track.(audio := Some(track.audio.value.(currentTime := 0.0)));
          }
        }
        audioTracks := audioTracks[i := track];
        i := i + 1;
      }
    }

    /** The page's `updateTimeline`, one animation frame at `now`. */
    method UpdateTimeline(now: real)
      requires Valid()
      modifies this
      ensures Valid() && State() == Frame(old(State()), now)
    {
      ghost var p := State();
      if !globalTimeline.isPlaying {
        return;
      }
      var elapsed := (now - globalTimeline.startTime) / 1000.0;
      assert elapsed == TimelineElapsed(p.timeline, now);
      globalTimeline := globalTimeline.(currentTime := elapsed);
      if elapsed >= globalTimeline.duration {
        if globalTimeline.loop {
          globalTimeline := globalTimeline.(startTime := now, currentTime := 0.0);
          ResetTracks();
          StoppedLength(p.tracks);
        } else {
          StopTimeline();
          return;
        }
      }
      ghost var q := audioTracks;
      StepTracks(elapsed);
      SteppedLength(q, elapsed);
      globalTimeline := globalTimeline.(framePending := true);
    }

    /** The page's `playTimeline` at `now`. */
    method PlayTimeline(now: real)
      requires Valid()
      modifies this
      ensures Valid() && State() == Played(old(State()), now)
    {
      if globalTimeline.isPlaying {
        StopTimeline();
        return;
      }
      globalTimeline := globalTimeline.(isPlaying := true, startTime := now, currentTime := 0.0);
      UpdateTimeline(now);
    }

    /** The `markerFound` handler: `playTimeline`, then the page's `playAllAnimations`. */
    method MarkerFound(page: ControlsExport.ControlsPage, now: real)
      requires Valid() && page.Valid()
      modifies this, page, page.Elements()
      ensures Valid() && State() == Played(old(State()), now)
      ensures page.Valid() && page.animationIntervals == ExportedPlanes.Timers(page.Attributes(), now)
    {
      PlayTimeline(now);
      page.PlayAll(now);
    }

    /** The `markerLost` handler: `stopTimeline`, then the page's `stopAllAnimations`. */
    method MarkerLost(page: ControlsExport.ControlsPage)
      requires Valid()
      modifies this, page, page.Elements()
      ensures Valid() && State() == StoppedPlayback(old(State()))
      ensures page.animationIntervals == []
    {
      StopTimeline();
      page.StopAll();
    }
  }

  /** Stopping tracks keeps every end, hence the length. */
  lemma StoppedLength(ts: seq<ExportTrack>)
    ensures LargestEnd(Stopped(ts)) == LargestEnd(ts)
  {
    SameEndsLength(ts, Stopped(ts));
  }

  /** Stepping tracks keeps every end, hence the length. */
  lemma SteppedLength(ts: seq<ExportTrack>, elapsed: real)
    ensures LargestEnd(Stepped(ts, elapsed)) == LargestEnd(ts)
  {
    forall k | 0 <= k < |ts| ensures Stepped(ts, elapsed)[k].endTime == ts[k].endTime {
      StepTrackSpec(ts[k], elapsed);
    }
    SameEndsLength(ts, Stepped(ts, elapsed));
  }

  /** Two track lists with the same ends, position by position, have the same length. */
  lemma SameEndsLength(a: seq<ExportTrack>, b: seq<ExportTrack>)
    requires |a| == |b| && forall k :: 0 <= k < |a| ==> a[k].endTime == b[k].endTime
    ensures LargestEnd(a) == LargestEnd(b)
  {
    LargestEndSpec(a);
    LargestEndSpec(b);
    if LargestEnd(a) != 0.0 {
      var k :| 0 <= k < |a| && a[k].endTime == LargestEnd(a);
    }
    if LargestEnd(b) != 0.0 {
      var k :| 0 <= k < |b| && b[k].endTime == LargestEnd(b);
    }
  }
}
