/** Small building blocks shared by the editor's modules: an optional value, the array
    searches and splices the code relies on, and the state of an HTML audio element. */
module Common {

  /** A JavaScript value that may be `null`. */
  datatype Option<T> = None | Some(value: T)

  /** `Array.prototype.findIndex` (and `find`): the index of the first element satisfying `p`. */
  function FindFirst<T>(s: seq<T>, p: T -> bool): (r: Option<nat>)
    ensures r.Some? ==> r.value < |s| && p(s[r.value])
    ensures r.Some? ==> forall j :: 0 <= j < r.value ==> !p(s[j])
    ensures r.None? <==> forall j :: 0 <= j < |s| ==> !p(s[j])
  {
    if |s| == 0 then None
    else if p(s[0]) then Some(0)
    else
      match FindFirst(s[1..], p)
      case None => None
      case Some(k) => Some(k + 1)
  }

  /** The search lands on `i` when `i` is the first index satisfying `p`. */
  lemma FindFirstAt<T>(s: seq<T>, p: T -> bool, i: nat)
    requires i < |s| && p(s[i]) && forall j :: 0 <= j < i ==> !p(s[j])
    ensures FindFirst(s, p) == Some(i)
  {
  }

  /** `array.splice(i, 1)`: the sequence without its element at index `i`. */
  function RemoveAt<T>(s: seq<T>, i: nat): (r: seq<T>)
    requires i < |s|
    ensures |r| == |s| - 1
    ensures forall j :: 0 <= j < i ==> r[j] == s[j]
    ensures forall j :: i <= j < |r| ==> r[j] == s[j + 1]
    ensures multiset(r) + multiset{s[i]} == multiset(s)
  {
    assert s == s[..i] + [s[i]] + s[i + 1..];
    s[..i] + s[i + 1..]
  }

  /** What the editor reads and writes of an HTML audio element. */
  datatype AudioElement = AudioElement(
    playing: bool,      // not `paused`
    currentTime: real,  // playback position in seconds
    loop: bool,
    volume: real,
    duration: real)     // known once the metadata has loaded

  /** `audio.pause()` */
  function Pause(a: AudioElement): (r: AudioElement)
    ensures !r.playing && r.currentTime == a.currentTime && r.loop == a.loop
    ensures r.volume == a.volume && r.duration == a.duration
  {
    a.(playing := false)
  }

  /** A fresh element of `new Audio()` with the editor's settings: not looping, volume 0.8. */
  function NewAudio(duration: real): (r: AudioElement)
    ensures !r.playing && !r.loop && r.currentTime == 0.0 && r.volume == 0.8
    ensures r.duration == duration
  {
    AudioElement(false, 0.0, false, 0.8, duration)
  }
}
