/** The `globalTimeline` record that the editor's audio controls and the exported controls
    page both keep, and the rule by which a frame of the timeline decides whether a track
    sounds. Time is given by the caller as `now`, in milliseconds, in place of
    `Date.now()`. */
module Timeline {
  import opened JsMath
  import opened Common

  /** `globalTimeline`; `framePending` stands for a non-null `animationId`, a frame
      requested from `requestAnimationFrame` and not cancelled. */
  datatype GlobalTimeline = GlobalTimeline(
    isPlaying: bool,
    startTime: real,     // ms, from Date.now()
    currentTime: real,   // s
    duration: real,      // s
    loop: bool,
    framePending: bool)

  /** The record as the script declares it. */
  const InitialTimeline := GlobalTimeline(false, 0.0, 0.0, 0.0, true, false)

  /** `(Date.now() - globalTimeline.startTime) / 1000`, in seconds. */
  function TimelineElapsed(g: GlobalTimeline, now: real): real
  {
    (now - g.startTime) / 1000.0
  }

  /** `shouldPlay`: the track sounds from its start up to, but not including, its end. */
  predicate ShouldPlay(elapsed: real, start: real, end: real)
  {
    elapsed >= start && elapsed < end
  }

  /** A number field that may hold `null`, as an operand of `<`, `<=`, `>=` or `-`:
      `null` converts to 0. */
  function NumberOf(x: Option<real>): real
  {
    if x.Some? then x.value else 0.0
  }

  /** A nullable number field used as a condition: neither `null` nor 0. */
  predicate Present(x: Option<real>)
  {
    x.Some? && Truthy(x.value)
  }

  /** `stopTimeline` on the clock: not playing, back at 0, no frame requested. */
  function StoppedClock(g: GlobalTimeline): (r: GlobalTimeline)
    ensures !r.isPlaying && r.currentTime == 0.0 && !r.framePending
    ensures r.startTime == g.startTime && r.duration == g.duration && r.loop == g.loop
  {
    g.(isPlaying := false, currentTime := 0.0, framePending := false)
  }
}
