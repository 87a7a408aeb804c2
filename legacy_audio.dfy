/** The sequential audio player embedded in the page `generateHtml` exports: the track
    records written into `initializeAudioTracks`, the background track, `stopAllAudio`,
    `playSequentialAudio`, `playNextInSequence` with the `ended` and `timeupdate` listeners
    it registers and the 100 ms timeout each listener schedules, and the marker handlers.
    Browser events are explicit calls: `TrackEnded(k)` is the `ended` event of the k-th
    track's element, `TimeUpdate(k)` its `timeupdate` event, `RunTimeout()` the oldest
    pending timeout firing. */
module LegacyAudio {
  import opened JsMath
  import opened Common
  import opened TrackLists
  import opened Timeline
  import AudioScript
  import ExportedPlanes
  import LegacyExport

  /** A record of the page's `audioTracks`. */
  datatype LegacyTrack = LegacyTrack(
    id: string,
    name: string,
    audio: AudioElement,
    playOrder: int,
    loop: bool,
    isBackground: bool,
    startTime: real,
    endTime: Option<real>,
    timelineMode: bool,
    volume: real,
    isPlaying: bool)

  // ---------------------------------------------------------------------------------------
  // The records written into the page

  /** The object literal the export writes for editor track `t`; `elements` are the page's
      `<audio id="audio-…">` elements, one per track. */
  function LegacyRecord(t: AudioScript.ScriptTrack, elements: map<string, AudioElement>): LegacyTrack
    requires t.id in elements
  {
    LegacyTrack(t.id, t.name, elements[t.id], t.playOrder, t.loop, t.isBackground, t.startTime,
                if Present(t.endTime) then t.endTime else None, t.timelineMode, t.audio.volume, false)
  }

  function LegacyRecords(ts: seq<AudioScript.ScriptTrack>, elements: map<string, AudioElement>): (r: seq<LegacyTrack>)
    requires forall k :: 0 <= k < |ts| ==> ts[k].id in elements
    ensures |r| == |ts| && forall k :: 0 <= k < |ts| ==> r[k] == LegacyRecord(ts[k], elements)
  {
    seq(|ts|, k requires 0 <= k < |ts| => LegacyRecord(ts[k], elements))
  }

  /** A record keeps the editor track's order, flags, start and volume and starts not
      playing; a `null` or zero end (`track.endTime || 'null'`) is written as `null`. */
  lemma LegacyRecordSpec(t: AudioScript.ScriptTrack, elements: map<string, AudioElement>)
    requires t.id in elements
    ensures var r := LegacyRecord(t, elements);
            && r.id == t.id && r.playOrder == t.playOrder && r.loop == t.loop
            && r.isBackground == t.isBackground && r.timelineMode == t.timelineMode
            && r.startTime == t.startTime && r.volume == t.audio.volume && !r.isPlaying
            && (Present(t.endTime) ==> r.endTime == t.endTime)
            && (!Present(t.endTime) ==> r.endTime.None?)
  {
  }

  /** The forEach of `initializeAudioTracks` on one record: the element takes the record's
      volume, and a background track's element loops. */
  function Initialized(t: LegacyTrack): (r: LegacyTrack)
    ensures r.audio.volume == t.volume
    ensures r.audio.loop == (t.isBackground || t.audio.loop)
    ensures r.audio.(volume := t.audio.volume, loop := t.audio.loop) == t.audio
    ensures r.(audio := t.audio) == t
  {
    t.(audio := t.audio.(volume := t.volume, loop := if t.isBackground then true else t.audio.loop))
  }

  function InitializedAll(ts: seq<LegacyTrack>): (r: seq<LegacyTrack>)
    ensures |r| == |ts| && forall k :: 0 <= k < |ts| ==> r[k] == Initialized(ts[k])
  {
    seq(|ts|, k requires 0 <= k < |ts| => Initialized(ts[k]))
  }

  /** `backgroundAudioTrack` after the forEach: the last background track, if any. */
  function LastBackground(ts: seq<LegacyTrack>): Option<nat>
  {
    if |ts| == 0 then None
    else if ts[|ts| - 1].isBackground then Some(|ts| - 1)
    else LastBackground(ts[..|ts| - 1])
  }

  /** `LastBackground` is a background track with none after it, and there is none exactly
      when no track is a background track. */
  lemma {:induction false} LastBackgroundSpec(ts: seq<LegacyTrack>)
    ensures match LastBackground(ts)
            case Some(k) => k < |ts| && ts[k].isBackground && forall j :: k < j < |ts| ==> !ts[j].isBackground
            case None => forall j :: 0 <= j < |ts| ==> !ts[j].isBackground
  {
    if |ts| > 0 && !ts[|ts| - 1].isBackground {
      var front := ts[..|ts| - 1];
      LastBackgroundSpec(front);
      assert forall j :: 0 <= j < |front| ==> front[j] == ts[j];
    }
  }

  // ---------------------------------------------------------------------------------------
  // The sequence of regular tracks

  /** The tracks' `isBackground` flags. */
  function Backgrounds(ts: seq<LegacyTrack>): (r: seq<bool>)
    ensures |r| == |ts| && forall k :: 0 <= k < |ts| ==> r[k] == ts[k].isBackground
  {
    seq(|ts|, k requires 0 <= k < |ts| => ts[k].isBackground)
  }

  /** The tracks' play orders. */
  function Orders(ts: seq<LegacyTrack>): (r: seq<int>)
    ensures |r| == |ts| && forall k :: 0 <= k < |ts| ==> r[k] == ts[k].playOrder
  {
    seq(|ts|, k requires 0 <= k < |ts| => ts[k].playOrder)
  }

  /** The indices below `n` of the tracks that are not background tracks, in array order:
      the `filter` of `playSequentialAudio`. */
  function Regular(bg: seq<bool>, n: nat): seq<nat>
    requires n <= |bg|
  {
    if n == 0 then [] else if bg[n - 1] then Regular(bg, n - 1) else Regular(bg, n - 1) + [n - 1]
  }

  /** Each regular index below `n` occurs once, and nothing else occurs. */
  lemma RegularSpec(bg: seq<bool>, n: nat)
    requires n <= |bg|
    ensures forall k: nat :: multiset(Regular(bg, n))[k] == if k < n && !bg[k] then 1 else 0
  {
    forall k: nat
      ensures multiset(Regular(bg, n))[k] == if k < n && !bg[k] then 1 else 0
    {
      RegularCount(bg, n, k);
    }
  }

  lemma {:induction false} RegularCount(bg: seq<bool>, n: nat, k: nat)
    requires n <= |bg|
    ensures multiset(Regular(bg, n))[k] == if k < n && !bg[k] then 1 else 0
  {
    if n > 0 {
      RegularCount(bg, n - 1, k);
      if !bg[n - 1] {
        var prev := Regular(bg, n - 1);
        assert multiset(prev + [n - 1]) == multiset(prev) + multiset{n - 1};
      }
    }
  }

  /** A track index's play order, as the page's `sort` compares it. */
  function OrderAt(orders: seq<int>): nat -> int
  {
    (k: nat) => if k < |orders| then orders[k] else 0
  }

  /** `regularTracks`: the regular tracks sorted by ascending play order. */
  function RegularTracks(ts: seq<LegacyTrack>): seq<nat>
  {
    SortByOrder(Regular(Backgrounds(ts), |ts|), OrderAt(Orders(ts)))
  }

  /** The sequence holds every track that is not a background track exactly once, nothing
      else, and is sorted by play order. */
  lemma RegularTracksSpec(ts: seq<LegacyTrack>)
    ensures var r := RegularTracks(ts);
            && SortedBy(r, OrderAt(Orders(ts)))
            && (forall k: nat :: multiset(r)[k] == if k < |ts| && !ts[k].isBackground then 1 else 0)
            && (forall i :: 0 <= i < |r| ==> r[i] < |ts| && !ts[r[i]].isBackground)
  {
    SortByOrderSpec(Regular(Backgrounds(ts), |ts|), OrderAt(Orders(ts)));
    RegularSpec(Backgrounds(ts), |ts|);
    var r := RegularTracks(ts);
    forall i | 0 <= i < |r| ensures r[i] < |ts| && !ts[r[i]].isBackground {
      assert r[i] in multiset(r);
    }
  }

  /** Stopping the tracks leaves the sequence as it was. */
  lemma StoppedSameRegular(ts: seq<LegacyTrack>)
    ensures RegularTracks(Stopped(ts)) == RegularTracks(ts)
  {
    SameRegularTracks(Stopped(ts), ts);
  }

  /** The sequence depends only on the tracks' flags and play orders. */
  lemma SameRegularTracks(a: seq<LegacyTrack>, b: seq<LegacyTrack>)
    requires |a| == |b|
    requires forall k :: 0 <= k < |a| ==> a[k].isBackground == b[k].isBackground && a[k].playOrder == b[k].playOrder
    ensures RegularTracks(a) == RegularTracks(b)
  {
    assert Backgrounds(a) == Backgrounds(b);
    assert Orders(a) == Orders(b);
  }

  // ---------------------------------------------------------------------------------------
  // The player's state

  /** The `ended` listener (and, when `watchesTime`, the `timeupdate` listener) one call of
      `playNextInSequence` registers on the element of track `track`, closing over the
      sequence `tracks`. */
  datatype Listener = Listener(track: nat, tracks: seq<nat>, watchesTime: bool)

  /** `audioTracks`, `currentSequentialIndex`, the registered listeners in registration
      order, the pending timeouts, each with the sequence it will continue, and
      `backgroundAudioTrack` as an index into `audioTracks`. */
  datatype Sequencer = Sequencer(tracks: seq<LegacyTrack>, index: nat, listeners: seq<Listener>,
                                 timeouts: seq<seq<nat>>, background: Option<nat>)

  predicate InRange(seqn: seq<nat>, n: nat)
  {
    forall i :: 0 <= i < |seqn| ==> seqn[i] < n
  }

  /** Every listener and every timeout refers to tracks of the array. */
  predicate WellFormed(s: Sequencer)
  {
    && (forall l :: l in s.listeners ==> l.track < |s.tracks| && InRange(l.tracks, |s.tracks|))
    && (forall q :: q in s.timeouts ==> InRange(q, |s.tracks|))
  }

  /** `r` has the tracks of `s`, with the same flags and play orders, and the same
      background track. */
  predicate Keeps(s: Sequencer, r: Sequencer)
  {
    && |r.tracks| == |s.tracks| && r.background == s.background
    && Backgrounds(r.tracks) == Backgrounds(s.tracks) && Orders(r.tracks) == Orders(s.tracks)
  }

  /** The forEach of `stopAllAudio` on one track: paused, not playing, and positioned at
      its start in timeline mode with a positive start, otherwise at 0. */
  function StopTrack(t: LegacyTrack): (r: LegacyTrack)
    ensures !r.isPlaying && !r.audio.playing
    ensures r.audio.currentTime == (if t.timelineMode && t.startTime > 0.0 then t.startTime else 0.0)
    ensures r.(audio := t.audio, isPlaying := t.isPlaying) == t
    ensures r.audio.(playing := t.audio.playing, currentTime := t.audio.currentTime) == t.audio
  {
    t.(audio := Pause(t.audio).(currentTime := if t.timelineMode && t.startTime > 0.0 then t.startTime else 0.0),
       isPlaying := false)
  }

  function Stopped(ts: seq<LegacyTrack>): (r: seq<LegacyTrack>)
    ensures |r| == |ts| && forall k :: 0 <= k < |ts| ==> r[k] == StopTrack(ts[k])
  {
    seq(|ts|, k requires 0 <= k < |ts| => StopTrack(ts[k]))
  }

  /** `stopAllAudio` as written: every track stopped and the index back at 0; the
      listeners and the pending timeouts are left in place. */
  function StopAll(s: Sequencer): (r: Sequencer)
    ensures Keeps(s, r)
  {
    s.(tracks := Stopped(s.tracks), index := 0)
  }

  /** `playNextInSequence(seqn)`: done when the index has reached the end; otherwise the
      track at the index is positioned at its start in timeline mode, played, and gets its
      listeners. */
  function PlayNext(s: Sequencer, seqn: seq<nat>): (r: Sequencer)
    ensures Keeps(s, r)
    requires InRange(seqn, |s.tracks|)
  {
    if s.index >= |seqn| then s
    else
      var k := seqn[s.index];
      var t := s.tracks[k];
      var a := if t.timelineMode && t.startTime > 0.0 then t.audio.(currentTime := t.startTime) else t.audio;
      s.(tracks := s.tracks[k := t.(audio := a.(playing := true), isPlaying := true)],
         listeners := s.listeners + [Listener(k, seqn, t.timelineMode && Present(t.endTime))])
  }

  /** `playSequentialAudio`. */
  function PlaySequential(s: Sequencer): (r: Sequencer)
    ensures Keeps(s, r)
  {
    if |s.tracks| == 0 then s
    else
      var stopped := StopAll(s);
      var seqn := RegularTracks(stopped.tracks);
      RegularTracksSpec(stopped.tracks);
      if |seqn| == 0 then stopped else PlayNext(stopped.(index := 0), seqn)
  }

  /** Whether listener `l` reacts to an event on track `k`: every listener on `k` for
      `ended`, only the ones watching the time for `timeupdate`. */
  predicate Reacts(l: Listener, k: nat, timeOnly: bool)
  {
    l.track == k && (!timeOnly || l.watchesTime)
  }

  /** The listeners, in registration order, that react. */
  function Reacting(ls: seq<Listener>, k: nat, timeOnly: bool): (r: seq<Listener>)
    ensures |r| <= |ls| && forall l :: l in r ==> l in ls && Reacts(l, k, timeOnly)
  {
    if |ls| == 0 then []
    else (if Reacts(ls[0], k, timeOnly) then [ls[0]] else []) + Reacting(ls[1..], k, timeOnly)
  }

  /** The listeners that do not react, and stay registered. */
  function Staying(ls: seq<Listener>, k: nat, timeOnly: bool): (r: seq<Listener>)
    ensures forall l :: l in r ==> l in ls && !Reacts(l, k, timeOnly)
  {
    if |ls| == 0 then []
    else (if Reacts(ls[0], k, timeOnly) then [] else [ls[0]]) + Staying(ls[1..], k, timeOnly)
  }

  /** Every listener either reacts or stays; some react exactly when one of them reacts,
      and when none does all of them stay. */
  lemma ReactingSplits(ls: seq<Listener>, k: nat, timeOnly: bool)
    ensures |Reacting(ls, k, timeOnly)| + |Staying(ls, k, timeOnly)| == |ls|
    ensures |Reacting(ls, k, timeOnly)| > 0 <==> exists l :: l in ls && Reacts(l, k, timeOnly)
    ensures |Reacting(ls, k, timeOnly)| == 0 ==> Staying(ls, k, timeOnly) == ls
  {
    ReactingPartition(ls, k, timeOnly);
    ReactingFindsOne(ls, k, timeOnly);
    var r := Reacting(ls, k, timeOnly);
    if |r| > 0 {
      assert r[0] in r;
    }
  }

  lemma {:induction false} ReactingPartition(ls: seq<Listener>, k: nat, timeOnly: bool)
    ensures |Reacting(ls, k, timeOnly)| + |Staying(ls, k, timeOnly)| == |ls|
    ensures |Reacting(ls, k, timeOnly)| == 0 ==> Staying(ls, k, timeOnly) == ls
  {
    if |ls| > 0 {
      ReactingPartition(ls[1..], k, timeOnly);
      assert ls == [ls[0]] + ls[1..];
    }
  }

  lemma {:induction false} ReactingFindsOne(ls: seq<Listener>, k: nat, timeOnly: bool)
    ensures (exists l :: l in ls && Reacts(l, k, timeOnly)) ==> |Reacting(ls, k, timeOnly)| > 0
  {
    if |ls| > 0 && exists l :: l in ls && Reacts(l, k, timeOnly) {
      var l :| l in ls && Reacts(l, k, timeOnly);
      if l != ls[0] && !Reacts(ls[0], k, timeOnly) {
        assert l in ls[1..];
        ReactingFindsOne(ls[1..], k, timeOnly);
      }
    }
  }

  function TracksOf(l: Listener): seq<nat> { l.tracks }

  /** The `onEnded` bodies of the reacting listeners, run one after the other: each
      removes its own listeners, marks its track as not playing, advances the index by one,
      and schedules the continuation of its sequence. */
  function Fire(s: Sequencer, k: nat, timeOnly: bool): (r: Sequencer)
    ensures Keeps(s, r)
    requires k < |s.tracks|
  {
    var fired := Reacting(s.listeners, k, timeOnly);
    var t := s.tracks[k];
    s.(tracks := if |fired| == 0 then s.tracks else s.tracks[k := t.(isPlaying := false)],
       index := s.index + |fired|,
       listeners := Staying(s.listeners, k, timeOnly),
       timeouts := s.timeouts + Mapped(fired, TracksOf))
  }

  /** The `ended` event of track `k`'s element: the element is paused at its end and every
      `ended` listener on it runs. */
  function Ended(s: Sequencer, k: nat): (r: Sequencer)
    ensures Keeps(s, r)
    requires k < |s.tracks|
  {
    var t := s.tracks[k];
    Fire(s.(tracks := s.tracks[k := t.(audio := Pause(t.audio))]), k, false)
  }

  /** The `timeupdate` event of track `k`'s element: when the track is in timeline mode
      with a truthy end that its position has reached, each `timeupdate` listener pauses
      the element and runs `onEnded`. */
  function TimeUpdated(s: Sequencer, k: nat): (r: Sequencer)
    ensures Keeps(s, r)
    requires k < |s.tracks|
  {
    var t := s.tracks[k];
    if t.timelineMode && Present(t.endTime) && t.audio.currentTime >= t.endTime.value then
      var fired := Reacting(s.listeners, k, true);
      if |fired| == 0 then s
      else Fire(s.(tracks := s.tracks[k := t.(audio := Pause(t.audio))]), k, true)
    else s
  }

  /** The oldest pending timeout fires and continues its sequence. */
  function Timeout(s: Sequencer): (r: Sequencer)
    ensures Keeps(s, r)
    requires WellFormed(s) && |s.timeouts| > 0
  {
    assert s.timeouts[0] in s.timeouts;
    PlayNext(s.(timeouts := s.timeouts[1..]), s.timeouts[0])
  }

  // ---------------------------------------------------------------------------------------
  // What the functions promise

  /** `stopAllAudio` stops every track and rewinds the index, and keeps every listener and
      every pending timeout. */
  lemma StopAllSpec(s: Sequencer)
    ensures var r := StopAll(s);
            && r.index == 0 && |r.tracks| == |s.tracks| && r.listeners == s.listeners && r.timeouts == s.timeouts
            && forall k :: 0 <= k < |r.tracks| ==> !r.tracks[k].isPlaying && !r.tracks[k].audio.playing
  {
  }

  /** The first track of the sequence has the lowest play order of all regular tracks. */
  lemma RegularTracksFirst(ts: seq<LegacyTrack>)
    requires |RegularTracks(ts)| > 0
    ensures var first := RegularTracks(ts)[0];
            && first < |ts| && !ts[first].isBackground
            && forall k :: 0 <= k < |ts| && !ts[k].isBackground ==> ts[first].playOrder <= ts[k].playOrder
  {
    var seqn := RegularTracks(ts);
    RegularTracksSpec(ts);
    forall k | 0 <= k < |ts| && !ts[k].isBackground
      ensures ts[seqn[0]].playOrder <= ts[k].playOrder
    {
      assert k in multiset(seqn);
      var i :| 0 <= i < |seqn| && seqn[i] == k;
      assert OrderAt(Orders(ts))(seqn[0]) <= OrderAt(Orders(ts))(seqn[i]);
    }
  }

  /** `playSequentialAudio` does nothing without tracks; otherwise it stops everything and,
      when there is a regular track, plays the one with the lowest play order from index 0
      and registers its listeners behind the ones already there. */
  lemma PlaySequentialSpec(s: Sequencer)
    ensures |s.tracks| == 0 ==> PlaySequential(s) == s
    ensures |s.tracks| > 0 && |RegularTracks(s.tracks)| == 0 ==> PlaySequential(s) == StopAll(s)
    ensures |s.tracks| > 0 && |RegularTracks(s.tracks)| > 0 ==>
              var r := PlaySequential(s);
              var first := RegularTracks(s.tracks)[0];
              first < |s.tracks| &&
              var t := s.tracks[first];
              && !t.isBackground
              && (forall k :: 0 <= k < |s.tracks| && !s.tracks[k].isBackground ==> t.playOrder <= s.tracks[k].playOrder)
              && r.index == 0 && r.tracks[first].isPlaying && r.tracks[first].audio.playing
              && r.listeners == s.listeners + [Listener(first, RegularTracks(s.tracks), t.timelineMode && Present(t.endTime))]
              && r.timeouts == s.timeouts
              && forall k :: 0 <= k < |s.tracks| && k != first ==> !r.tracks[k].isPlaying
  {
    if |s.tracks| > 0 && |RegularTracks(s.tracks)| > 0 {
      RegularTracksFirst(s.tracks);
    }
  }

  /** Once the index has reached the end of the sequence, nothing more is played. */
  lemma PlayNextAtEnd(s: Sequencer, seqn: seq<nat>)
    requires InRange(seqn, |s.tracks|) && s.index >= |seqn|
    ensures PlayNext(s, seqn) == s
  {
  }

  lemma StopAllWellFormed(s: Sequencer)
    requires WellFormed(s)
    ensures WellFormed(StopAll(s))
  {
  }

  lemma PlayNextWellFormed(s: Sequencer, seqn: seq<nat>)
    requires WellFormed(s) && InRange(seqn, |s.tracks|)
    ensures WellFormed(PlayNext(s, seqn))
  {
  }

  lemma FireWellFormed(s: Sequencer, k: nat, timeOnly: bool)
    requires WellFormed(s) && k < |s.tracks|
    ensures WellFormed(Fire(s, k, timeOnly))
  {
    var fired := Reacting(s.listeners, k, timeOnly);
    var added := Mapped(fired, TracksOf);
    forall q | q in s.timeouts + added ensures InRange(q, |s.tracks|) {
      if q in added {
        var i :| 0 <= i < |added| && added[i] == q;
        assert fired[i] in fired;
      }
    }
  }

  lemma PlaySequentialWellFormed(s: Sequencer)
    requires WellFormed(s)
    ensures WellFormed(PlaySequential(s))
  {
    if |s.tracks| > 0 {
      RegularTracksSpec(s.tracks);
      PlayNextWellFormed(StopAll(s).(index := 0), RegularTracks(s.tracks));
    }
  }

  lemma PausedWellFormed(s: Sequencer, k: nat)
    requires WellFormed(s) && k < |s.tracks|
    ensures WellFormed(s.(tracks := s.tracks[k := s.tracks[k].(audio := Pause(s.tracks[k].audio))]))
  {
  }

  lemma TimeoutWellFormed(s: Sequencer)
    requires WellFormed(s) && |s.timeouts| > 0
    ensures WellFormed(Timeout(s))
  {
    var rest := s.(timeouts := s.timeouts[1..]);
    assert forall q :: q in rest.timeouts ==> q in s.timeouts;
    assert s.timeouts[0] in s.timeouts;
    PlayNextWellFormed(rest, s.timeouts[0]);
  }

  /** Every event keeps the state well formed. */
  lemma EventsWellFormed(s: Sequencer, k: nat, seqn: seq<nat>)
    requires WellFormed(s) && k < |s.tracks| && InRange(seqn, |s.tracks|)
    ensures WellFormed(StopAll(s)) && WellFormed(PlaySequential(s)) && WellFormed(PlayNext(s, seqn))
    ensures WellFormed(Ended(s, k)) && WellFormed(TimeUpdated(s, k))
    ensures |s.timeouts| > 0 ==> WellFormed(Timeout(s))
  {
    StopAllWellFormed(s);
    PlayNextWellFormed(s, seqn);
    PlaySequentialWellFormed(s);
    var paused := s.(tracks := s.tracks[k := s.tracks[k].(audio := Pause(s.tracks[k].audio))]);
    PausedWellFormed(s, k);
    FireWellFormed(paused, k, false);
    FireWellFormed(paused, k, true);
    if |s.timeouts| > 0 {
      TimeoutWellFormed(s);
    }
  }

  // ---------------------------------------------------------------------------------------
  // The stale listeners

  /** Two regular tracks, 'a' first. */
  const TrackA := LegacyTrack("a", "a", AudioElement(false, 0.0, false, 1.0, 10.0), 1, false, false, 0.0, None, false, 1.0, false)
  const TrackB := LegacyTrack("b", "b", AudioElement(false, 0.0, false, 1.0, 10.0), 2, false, false, 0.0, None, false, 1.0, false)
  const TwoTracks := Sequencer([TrackA, TrackB], 0, [], [], None)

  /** Two regular tracks in play order are played first to second. */
  lemma TwoRegular(ts: seq<LegacyTrack>)
    requires |ts| == 2 && !ts[0].isBackground && !ts[1].isBackground && ts[0].playOrder <= ts[1].playOrder
    ensures RegularTracks(ts) == [0, 1]
  {
    var bg := Backgrounds(ts);
    assert Regular(bg, 1) == [0];
    assert Regular(bg, 2) == [0, 1];
    var one: seq<nat> := [1];
    var both: seq<nat> := [0, 1];
    assert SortByOrder(one, OrderAt(Orders(ts))) == [1];
    assert both[1..] == one;
  }

  /** Two regular tracks in play order: `playSequentialAudio` plays the first and
      registers its listeners behind the ones already there. */
  lemma TwoTrackPlay(s: Sequencer)
    requires |s.tracks| == 2 && !s.tracks[0].isBackground && !s.tracks[1].isBackground
    requires s.tracks[0].playOrder <= s.tracks[1].playOrder
    ensures var r := PlaySequential(s);
            && r.index == 0 && r.timeouts == s.timeouts && |r.tracks| == 2
            && r.listeners == s.listeners + [Listener(0, [0, 1], s.tracks[0].timelineMode && Present(s.tracks[0].endTime))]
            && r.tracks[1] == StopTrack(s.tracks[1])
            && r.tracks[0].isBackground == s.tracks[0].isBackground && r.tracks[0].playOrder == s.tracks[0].playOrder
            && r.tracks[0].timelineMode == s.tracks[0].timelineMode && r.tracks[0].endTime == s.tracks[0].endTime
  {
    TwoRegular(s.tracks);
  }

  /** Two `ended` listeners on track 0 both run: the index advances by two and both
      continuations are scheduled. */
  lemma EndedTwice(s: Sequencer, l: Listener)
    requires |s.tracks| == 2 && s.listeners == [l, l] && l.track == 0
    ensures var r := Ended(s, 0);
            && r.index == s.index + 2 && r.listeners == [] && r.timeouts == s.timeouts + [l.tracks, l.tracks]
            && r.tracks[1] == s.tracks[1] && |r.tracks| == 2
  {
    assert [l, l][1..] == [l];
    assert [l][1..] == [];
    assert Staying([l], 0, false) == [];
    assert Reacting([l, l], 0, false) == [l, l];
    assert Staying([l, l], 0, false) == [];
  }

  /** As written, the marker being lost and found again while track 'a' plays leaves the
      first `ended` listener of 'a' registered beside the new one: when 'a' ends both run,
      the index jumps from 0 to 2, and both continuations find the sequence finished, so
      'b' is never played. */
  lemma StaleListenerSkipsTrack()
    ensures var played := PlaySequential(StopAll(PlaySequential(TwoTracks)));
            && |played.tracks| == 2 && |played.listeners| == 2
            && var ended := Ended(played, 0);
               && ended.index == 2 && |ended.timeouts| == 2 && WellFormed(ended)
               && var once := Timeout(ended);
                  && once.index == 2 && |once.timeouts| == 1 && WellFormed(once)
                  && var after := Timeout(once);
                     after.index == 2 && after.listeners == [] && after.timeouts == [] && !after.tracks[1].isPlaying
  {
    TwoTrackPlay(TwoTracks);
    var first := PlaySequential(TwoTracks);
    var l := Listener(0, [0, 1], false);
    var stopped := StopAll(first);
    TwoTrackPlay(stopped);
    var played := PlaySequential(stopped);
    assert played.listeners == [l, l];
    EndedTwice(played, l);
    var ended := Ended(played, 0);
    assert ended.timeouts == [[0, 1], [0, 1]];
    TimeoutWellFormed(ended);
    var once := Timeout(ended);
    assert once == ended.(timeouts := [[0, 1]]);
    TimeoutWellFormed(once);
  }

  // ---------------------------------------------------------------------------------------
  // The corrected stop

  /** `stopAllAudio` as evidently intended: it also removes the sequence's listeners and
      cancels its pending timeouts. */
  function StopAllClearing(s: Sequencer): (r: Sequencer)
    ensures Keeps(s, r)
    ensures r == StopAll(s).(listeners := [], timeouts := [])
  {
    s.(tracks := Stopped(s.tracks), index := 0, listeners := [], timeouts := [])
  }

  /** `playSequentialAudio` with the corrected stop. */
  function PlaySequentialClearing(s: Sequencer): (r: Sequencer)
    ensures Keeps(s, r)
  {
    if |s.tracks| == 0 then s
    else
      var stopped := StopAllClearing(s);
      var seqn := RegularTracks(stopped.tracks);
      RegularTracksSpec(stopped.tracks);
      if |seqn| == 0 then stopped else PlayNext(stopped, seqn)
  }

  /** At most one thing is waiting to continue the sequence: one track's listeners or one
      timeout. */
  predicate SingleCursor(s: Sequencer)
  {
    |s.listeners| + |s.timeouts| <= 1
  }

  /** With the corrected stop, every event keeps a single cursor, starting from any state. */
  lemma ClearingKeepsSingleCursor(s: Sequencer, k: nat)
    requires WellFormed(s) && k < |s.tracks|
    ensures SingleCursor(StopAllClearing(s)) && WellFormed(StopAllClearing(s))
    ensures |s.tracks| > 0 ==> SingleCursor(PlaySequentialClearing(s))
    ensures SingleCursor(s) ==> SingleCursor(Ended(s, k)) && SingleCursor(TimeUpdated(s, k))
    ensures SingleCursor(s) && |s.timeouts| > 0 ==> SingleCursor(Timeout(s))
  {
    var paused := s.(tracks := s.tracks[k := s.tracks[k].(audio := Pause(s.tracks[k].audio))]);
    ReactingSplits(paused.listeners, k, false);
    ReactingSplits(paused.listeners, k, true);
  }

  /** With a single cursor, the `ended` event of the track whose listener is registered
      advances the index by exactly one and leaves one pending timeout; an `ended` event of
      any other track leaves the index alone. */
  lemma ClearingAdvancesByOne(s: Sequencer, k: nat)
    requires SingleCursor(s) && k < |s.tracks|
    ensures |s.listeners| == 1 && s.listeners[0].track == k ==>
              var r := Ended(s, k);
              r.index == s.index + 1 && r.listeners == [] && r.timeouts == s.timeouts + [s.listeners[0].tracks]
    ensures (forall l :: l in s.listeners ==> l.track != k) ==> Ended(s, k) == s.(tracks := s.tracks[k := s.tracks[k].(audio := Pause(s.tracks[k].audio))])
  {
    ReactingSplits(s.listeners, k, false);
    if |s.listeners| == 1 && s.listeners[0].track == k {
      assert s.listeners[..0] == [];
      assert Reacting(s.listeners, k, false) == [s.listeners[0]];
    }
  }

  /** With the corrected stop, the two-track scenario plays 'b' after 'a' ends. */
  lemma ClearingPlaysSecondTrack()
    ensures var played := PlaySequentialClearing(StopAllClearing(PlaySequentialClearing(TwoTracks)));
            && |played.tracks| == 2
            && var ended := Ended(played, 0);
               && ended.index == 1 && |ended.timeouts| == 1 && WellFormed(ended)
               && var after := Timeout(ended);
                  |after.tracks| == 2 && after.tracks[1].isPlaying && after.tracks[1].audio.playing
  {
    TwoRegular(TwoTracks.tracks);
    var stopped := StopAllClearing(PlaySequentialClearing(TwoTracks));
    TwoRegular(stopped.tracks);
    var played := PlaySequentialClearing(stopped);
    assert played.listeners == [Listener(0, [0, 1], false)] && played.timeouts == [] && played.index == 0;
    ClearingAdvancesByOne(played, 0);
  }

  // ---------------------------------------------------------------------------------------
  // The background track

  /** `backgroundAudioTrack` is a background track of the array. */
  predicate BackgroundValid(s: Sequencer)
  {
    s.background.Some? ==> s.background.value < |s.tracks| && s.tracks[s.background.value].isBackground
  }

  /** The start of `markerFound`: the background track's element, if there is one, is
      played; its `isPlaying` flag is left as it is. */
  function PlayBackground(s: Sequencer): (r: Sequencer)
    ensures Keeps(s, r)
    requires BackgroundValid(s)
  {
    match s.background
    case None => s
    case Some(b) =>
      var t := s.tracks[b];
      s.(tracks := s.tracks[b := t.(audio := t.audio.(playing := true))])
  }

  /** `toggleBackgroundAudio`: nothing without a background track; otherwise it pauses
      the track when it counts as playing and plays it when not. */
  function ToggleBackground(s: Sequencer): (r: Sequencer)
    ensures Keeps(s, r)
    requires BackgroundValid(s)
  {
    match s.background
    case None => s
    case Some(b) =>
      var t := s.tracks[b];
      if t.isPlaying then s.(tracks := s.tracks[b := t.(audio := Pause(t.audio), isPlaying := false)])
      else s.(tracks := s.tracks[b := t.(audio := t.audio.(playing := true), isPlaying := true)])
  }

  /** Toggling flips the background track's flag and sets its element to match, touches
      no other track, and toggling twice restores the flag. */
  lemma ToggleBackgroundSpec(s: Sequencer)
    requires BackgroundValid(s)
    ensures s.background.None? ==> ToggleBackground(s) == s
    ensures s.background.Some? ==>
              var b := s.background.value;
              var r := ToggleBackground(s);
              && |r.tracks| == |s.tracks|
              && r.tracks[b].isPlaying == !s.tracks[b].isPlaying
              && r.tracks[b].audio.playing == r.tracks[b].isPlaying
              && (forall k :: 0 <= k < |s.tracks| && k != b ==> r.tracks[k] == s.tracks[k])
              && r.(tracks := s.tracks) == s
              && BackgroundValid(r)
              && ToggleBackground(r).tracks[b].isPlaying == s.tracks[b].isPlaying
  {
  }

  /** The audio part of `markerFound` as written: play the background track, then
      `playSequentialAudio`. */
  function MarkerFoundAudio(s: Sequencer): (r: Sequencer)
    ensures Keeps(s, r)
    requires BackgroundValid(s)
  {
    PlaySequential(PlayBackground(s))
  }

  /** As written, `playSequentialAudio` begins with `stopAllAudio`, which pauses every track
      including the background one just played, and then plays only regular tracks: after
      `markerFound` the background track is never playing. */
  lemma MarkerFoundSilencesBackground(s: Sequencer)
    requires BackgroundValid(s) && s.background.Some?
    ensures var r := MarkerFoundAudio(s);
            var b := s.background.value;
            b < |r.tracks| && !r.tracks[b].audio.playing && !r.tracks[b].isPlaying
  {
    var p := PlayBackground(s);
    RegularTracksSpec(p.tracks);
    var b := s.background.value;
    var seqn := RegularTracks(p.tracks);
    if |seqn| > 0 {
      assert seqn[0] != b;
    }
  }

  /** The audio part of `markerFound` as evidently intended: the sequence starts first and
      the background track is played after it. */
  function MarkerFoundAudioBackgroundLast(s: Sequencer): (r: Sequencer)
    ensures Keeps(s, r)
    requires BackgroundValid(s)
  {
    PlaySequentialSpec(s);
    PlayBackgroundKeepsValid(PlaySequential(s), s);
    PlayBackground(PlaySequential(s))
  }

  lemma PlayBackgroundKeepsValid(r: Sequencer, s: Sequencer)
    requires BackgroundValid(s) && |r.tracks| == |s.tracks| && r.background == s.background
    requires forall k :: 0 <= k < |s.tracks| ==> r.tracks[k].isBackground == s.tracks[k].isBackground
    ensures BackgroundValid(r)
  {
  }

  /** With the background track played last, it is playing after `markerFound`, and the
      sequence is started exactly as before. */
  lemma BackgroundLastPlays(s: Sequencer)
    requires BackgroundValid(s)
    ensures var r := MarkerFoundAudioBackgroundLast(s);
            var q := PlaySequential(s);
            && |r.tracks| == |q.tracks| == |s.tracks|
            && r.index == q.index && r.listeners == q.listeners && r.timeouts == q.timeouts
            && (s.background.Some? ==> r.tracks[s.background.value].audio.playing)
            && (forall k :: 0 <= k < |q.tracks| && Some(k) != s.background ==> r.tracks[k] == q.tracks[k])
  {
    PlaySequentialSpec(s);
  }

  // ---------------------------------------------------------------------------------------
  // The page script's globals

  /** The audio globals of the page script and the handlers that change them. */
  class LegacySequencer {
    var audioTracks: seq<LegacyTrack>
    var currentSequentialIndex: nat
    var listeners: seq<Listener>
    var timeouts: seq<seq<nat>>
    var backgroundAudioTrack: Option<nat>
    var markerVisible: bool

    function State(): Sequencer
      reads this
    {
      Sequencer(audioTracks, currentSequentialIndex, listeners, timeouts, backgroundAudioTrack)
    }

    /** The globals as the script declares them. */
    constructor ()
      ensures State() == Sequencer([], 0, [], [], None) && !markerVisible
    {
      audioTracks := [];
      currentSequentialIndex := 0;
      listeners := [];
      timeouts := [];
      backgroundAudioTrack := None;
      markerVisible := false;
    }

    /** `initializeAudioTracks`: the array becomes the generated records (one `push` per
        editor track), then the forEach sets each element's volume, makes background
        elements loop and records the last background track; without one
        `backgroundAudioTrack` keeps its value. */
    method InitializeAudioTracks(records: seq<LegacyTrack>)
      modifies this
      ensures audioTracks == InitializedAll(records)
      ensures backgroundAudioTrack == if LastBackground(records).Some? then LastBackground(records) else old(backgroundAudioTrack)
      ensures currentSequentialIndex == old(currentSequentialIndex) && listeners == old(listeners)
      ensures timeouts == old(timeouts) && markerVisible == old(markerVisible)
    {
      audioTracks := records;
      for k := 0 to |audioTracks|
        invariant |audioTracks| == |records|
        invariant forall j :: 0 <= j < k ==> audioTracks[j] == Initialized(records[j])
        invariant forall j :: k <= j < |records| ==> audioTracks[j] == records[j]
        invariant backgroundAudioTrack == if LastBackground(records[..k]).Some? then LastBackground(records[..k]) else old(backgroundAudioTrack)
        invariant markerVisible == old(markerVisible)
        invariant currentSequentialIndex == old(currentSequentialIndex) && listeners == old(listeners)
        invariant timeouts == old(timeouts)
      {
        var track := audioTracks[k];
        track := track.(audio := track.audio.(volume := track.volume));
        if track.isBackground {
          track := track.(audio := track.audio.(loop := true));
          backgroundAudioTrack := Some(k);
        }
        audioTracks := audioTracks[k := track];
        assert records[..k + 1][..k] == records[..k];
      }
      assert records[..|records|] == records;
      assert audioTracks == InitializedAll(records);
    }

    /** `stopAllAudio`. */
    method StopAllAudio()
      modifies this
      ensures State() == StopAll(old(State())) && markerVisible == old(markerVisible)
    {
      for k := 0 to |audioTracks|
        invariant |audioTracks| == |old(audioTracks)|
        invariant forall j :: 0 <= j < k ==> audioTracks[j] == StopTrack(old(audioTracks)[j])
        invariant forall j :: k <= j < |audioTracks| ==> audioTracks[j] == old(audioTracks)[j]
        invariant currentSequentialIndex == old(currentSequentialIndex) && listeners == old(listeners)
        invariant timeouts == old(timeouts) && backgroundAudioTrack == old(backgroundAudioTrack)
        invariant markerVisible == old(markerVisible)
      {
        var track := audioTracks[k];
        var audio := Pause(track.audio);
        track := track.(isPlaying := false);
        if track.timelineMode && track.startTime > 0.0 {
          audio := audio.(currentTime := track.startTime);
        } else {
          audio := audio.(currentTime := 0.0);
        }
        audioTracks := audioTracks[k := track.(audio := audio)];
      }
      assert audioTracks == Stopped(old(audioTracks));
      currentSequentialIndex := 0;
    }

    /** `playNextInSequence(tracks)`. */
    method PlayNextInSequence(tracks: seq<nat>)
      requires InRange(tracks, |audioTracks|)
      modifies this
      ensures State() == PlayNext(old(State()), tracks) && markerVisible == old(markerVisible)
    {
      if currentSequentialIndex >= |tracks| {
        return;
      }
      var k := tracks[currentSequentialIndex];
      var track := audioTracks[k];
      var audio := track.audio;
      if track.timelineMode && track.startTime > 0.0 {
        audio := audio.(currentTime := track.startTime);
      }
      audio := audio.(playing := true);
      audioTracks := audioTracks[k := track.(audio := audio, isPlaying := true)];
      listeners := listeners + [Listener(k, tracks, track.timelineMode && Present(track.endTime))];
    }

    /** `playSequentialAudio`. */
    method PlaySequentialAudio()
      modifies this
      ensures State() == PlaySequential(old(State())) && markerVisible == old(markerVisible)
    {
      if |audioTracks| == 0 {
        return;
      }
      StopAllAudio();
      var regularTracks := RegularTracks(audioTracks);
      RegularTracksSpec(audioTracks);
      if |regularTracks| == 0 {
        return;
      }
      currentSequentialIndex := 0;
      PlayNextInSequence(regularTracks);
    }

    /** The `ended` event of track `k`'s element. */
    method TrackEnded(k: nat)
      requires k < |audioTracks|
      modifies this
      ensures State() == Ended(old(State()), k) && markerVisible == old(markerVisible)
    {
      var track := audioTracks[k];
      audioTracks := audioTracks[k := track.(audio := Pause(track.audio))];
      FireListeners(k, false);
    }

    /** The `timeupdate` event of track `k`'s element. */
    method TrackTimeUpdate(k: nat)
      requires k < |audioTracks|
      modifies this
      ensures State() == TimeUpdated(old(State()), k) && markerVisible == old(markerVisible)
    {
      var track := audioTracks[k];
      if track.timelineMode && Present(track.endTime) && track.audio.currentTime >= track.endTime.value
         && |Reacting(listeners, k, true)| > 0 {
        audioTracks := audioTracks[k := track.(audio := Pause(track.audio))];
        FireListeners(k, true);
      }
    }

    /** The reacting listeners' `onEnded` bodies. */
    method FireListeners(k: nat, timeOnly: bool)
      requires k < |audioTracks|
      modifies this
      ensures State() == Fire(old(State()), k, timeOnly) && markerVisible == old(markerVisible)
    {
      var fired := Reacting(listeners, k, timeOnly);
      listeners := Staying(listeners, k, timeOnly);
      if |fired| > 0 {
        var track := audioTracks[k];
        audioTracks := audioTracks[k := track.(isPlaying := false)];
      }
      currentSequentialIndex := currentSequentialIndex + |fired|;
      timeouts := timeouts + Mapped(fired, TracksOf);
    }

    /** The oldest pending timeout's callback. */
    method RunTimeout()
      requires WellFormed(State()) && |timeouts| > 0
      modifies this
      ensures State() == Timeout(old(State())) && markerVisible == old(markerVisible)
    {
      var tracks := timeouts[0];
      assert tracks in State().timeouts;
      timeouts := timeouts[1..];
      PlayNextInSequence(tracks);
    }

    /** `toggleBackgroundAudio`. */
    method ToggleBackgroundAudio()
      requires BackgroundValid(State())
      modifies this
      ensures State() == ToggleBackground(old(State())) && markerVisible == old(markerVisible)
    {
      if backgroundAudioTrack.None? {
        return;
      }
      var b := backgroundAudioTrack.value;
      var track := audioTracks[b];
      if track.isPlaying {
        audioTracks := audioTracks[b := track.(audio := Pause(track.audio), isPlaying := false)];
      } else {
        audioTracks := audioTracks[b := track.(audio := track.audio.(playing := true), isPlaying := true)];
      }
    }

    /** The `markerFound` handler: plays the background track, then the sequence, then
        the page's animations. */
    method MarkerFound(page: LegacyExport.LegacyPage, now: real)
      requires BackgroundValid(State()) && page.Valid()
      modifies this, page
      ensures markerVisible && State() == MarkerFoundAudio(old(State()))
      ensures page.Valid() && page.animationIntervals == ExportedPlanes.Timers(page.Attributes(), now)
    {
      markerVisible := true;
      if backgroundAudioTrack.Some? {
        var b := backgroundAudioTrack.value;
        var track := audioTracks[b];
        audioTracks := audioTracks[b := track.(audio := track.audio.(playing := true))];
      }
      PlaySequentialAudio();
      page.PlayAll(now);
    }

    /** The `markerLost` handler: stops the audio, then the page's animations. */
    method MarkerLost(page: LegacyExport.LegacyPage)
      modifies this, page
      ensures !markerVisible && State() == StopAll(old(State()))
      ensures page.animationIntervals == []
    {
      markerVisible := false;
      StopAllAudio();
      page.StopAll();
    }
  }
}
